/** Clerks of the replicated store. An operation makes attempts one after the other, each with
    an id of its own, until a Submit thread answers one of them; attempts that were given up
    may be committed at any time, even after the clerk has returned. */
module KvClerks {
  import opened KvStore
  import opened RaftLog
  import opened RaftNode
  import opened Cluster
  import opened Rsm
  import C = Consensus
  import opened Refinement
  import opened ClusterProof
  import opened RaftSafety
  import opened ReplicatedStore
  import opened KvRaft

  /** At moment `at` a thread on `server` has the result; `first` says that no call went before. */
  datatype Answer = Pending | Answer(at: nat, server: nat, thread: nat, first: bool)

  /** One Get or Put of some clerk, with the ids of all its attempts. */
  datatype Op = Op(request: Request, ids: set<int>, invoked: nat, answer: Answer)

  /** The service of some server calls Start for one of these operations. */
  predicate Tries(x: Happening, ids: set<int>) {
    x.Raft? && x.event.Submit? && x.event.command.Do? && x.event.command.id in ids
  }

  predicate TriesAs(x: Happening, id: int) {
    Tries(x, {id})
  }

  predicate Replied(run: seq<World>, op: Op) {
    && op.answer.Answer? && op.answer.at < |run|
    && op.answer.server < |run[op.answer.at].services|
    && op.answer.thread < |run[op.answer.at].services[op.answer.server].threads|
    && ThreadOf(run, op).outcome.Ok? && ThreadOf(run, op).id in op.ids
  }

  function ThreadOf(run: seq<World>, op: Op): Thread
    requires op.answer.Answer? && op.answer.at < |run|
    requires op.answer.server < |run[op.answer.at].services|
    requires op.answer.thread < |run[op.answer.at].services[op.answer.server].threads|
  {
    run[op.answer.at].services[op.answer.server].threads[op.answer.thread]
  }

  /** What the clerk returns. */
  function Result(run: seq<World>, op: Op): Reply
    requires Replied(run, op)
  {
    ClerkResult(op.answer.first, ThreadOf(run, op).outcome.result)
  }

  /** All attempts of `op` that occur in the run are its own: they carry its request, are made
      after it was invoked, and no id is used twice. */
  ghost predicate Issues(run: seq<World>, xs: seq<Happening>, op: Op) {
    && (forall i | 0 <= i < |xs| && Tries(xs[i], op.ids) ::
          xs[i].event.command.request == op.request && op.invoked <= i)
    && (forall i, j | 0 <= i < j < |xs| && Tries(xs[i], op.ids) && Tries(xs[j], op.ids) ::
          xs[i].event.command.id != xs[j].event.command.id)
    && (op.answer.Answer? ==> Replied(run, op) && (op.answer.first ==> op.ids == {ThreadOf(run, op).id}))
  }

  /** No attempt is started after the one that is answered: each call ended before the next. */
  ghost predicate InTurn(run: seq<World>, xs: seq<Happening>, op: Op)
    requires Replied(run, op)
  {
    forall i, j | 0 <= i < |xs| && 0 <= j < |xs| && TriesAs(xs[i], ThreadOf(run, op).id) && Tries(xs[j], op.ids) ::
      j <= i
  }

  // ---------------------------------------------------------------- where entries come from

  /** The Start that happens at `i` places the entry at index `k` of the log. */
  predicate PlacedAt(run: seq<World>, xs: seq<Happening>, i: nat, x: Placed) {
    i < |xs| && i < |run| && xs[i].Raft? && Possible(run[i], xs[i]) && Places(run[i].cluster, xs[i].event, x)
  }

  lemma {:induction false} StartedIn(run: seq<World>, xs: seq<Happening>, m: nat, x: Placed) returns (i: nat)
    requires Trace(run, xs) && m <= |xs| && x in run[m].cluster.started
    ensures i < m && PlacedAt(run, xs, i, x)
    decreases m
  {
    assert Possible(run[m - 1], xs[m - 1]) && run[m] == After(run[m - 1], xs[m - 1]);
    if x in run[m - 1].cluster.started {
      i := StartedIn(run, xs, m - 1, x);
    } else {
      i := m - 1;
    }
  }

  function Clusters(run: seq<World>): seq<Cluster.State> {
    seq(|run|, i requires 0 <= i < |run| => run[i].cluster)
  }

  lemma ClusterHistory(run: seq<World>, h: seq<C.State>, ok: Command -> bool)
    requires StepHistory(run, h, ok)
    ensures History(Clusters(run), h)
  {
    hide C.Inv, C.Grows, Follows, AllHeld;
    var r := Clusters(run);
    forall i: nat | i < |r| ensures C.Inv(h[i]) && Follows(r[i], h[i]) {
      assert Good(run[i], h[i], ok);
    }
  }

  /** Entries of one log stand in the order of their Starts. */
  lemma InStartOrder(run: seq<World>, xs: seq<Happening>, h: seq<C.State>, ok: Command -> bool, log: seq<Entry>,
                     i: nat, j: nat, k: nat, l: nat)
    requires Trace(run, xs) && StepHistory(run, h, ok) && C.Sound(h[|xs|].lead, log)
    requires 0 < k <= |log| && 0 < l <= |log| && i < j
    requires PlacedAt(run, xs, i, Placed(k, log[k - 1])) && PlacedAt(run, xs, j, Placed(l, log[l - 1]))
    ensures k < l
  {
    hide C.Inv, C.Grows, C.Sound, Good, Possible, Places;
    ClusterHistory(run, h, ok);
    Stutter(run, xs, i, Placed(k, log[k - 1]));
    Stutter(run, xs, j, Placed(l, log[l - 1]));
    StartsInOrder(Clusters(run), h, i, j, |xs|, Placed(k, log[k - 1]), Placed(l, log[l - 1]), log);
  }

  lemma Stutter(run: seq<World>, xs: seq<Happening>, i: nat, x: Placed)
    requires Trace(run, xs) && PlacedAt(run, xs, i, x)
    ensures StartsAt(Clusters(run), i, x)
  {
    var r := Clusters(run);
    assert run[i + 1] == After(run[i], xs[i]);
    assert r[i + 1] == Step(r[i], xs[i].event) && Places(r[i], xs[i].event, x);
  }

  /** Every entry of the committed log was placed by a Start of the run. */
  lemma Origin(run: seq<World>, xs: seq<Happening>, h: seq<C.State>, ok: Command -> bool, log: seq<Entry>, k: nat)
    returns (i: nat)
    requires Trace(run, xs) && StepHistory(run, h, ok) && C.Sound(h[|xs|].lead, log) && 0 < k <= |log|
    ensures i < |xs| && PlacedAt(run, xs, i, Placed(k, log[k - 1]))
    ensures xs[i].event.Submit? && xs[i].event.command == log[k - 1].command
  {
    hide C.Inv, C.Grows, C.Sound, AllHeld;
    assert Good(run[|xs|], h[|xs|], ok);
    EntriesWereStarted(run[|xs|].cluster, h[|xs|], log, k);
    i := StartedIn(run, xs, |xs|, Placed(k, log[k - 1]));
  }

  // ---------------------------------------------------------------- the answered attempt

  /** The answer is that of the attempt's own entry of the committed log, which was started
      before the answer was given. */
  lemma AnswerInLog(run: seq<World>, xs: seq<Happening>, h: seq<C.State>, ok: Command -> bool, log: seq<Entry>, op: Op)
    returns (i: nat)
    requires Trace(run, xs) && StepHistory(run, h, ok) && CommittedLog(h[|xs|], log) && Replied(run, op)
    ensures var t := ThreadOf(run, op);
      && 0 < t.index <= |log| && log[t.index - 1].command.Do?
      && log[t.index - 1].command.id == t.id && ok(log[t.index - 1].command)
      && t.outcome.result == ReplyAt(log, t.index)
      && i < op.answer.at && PlacedAt(run, xs, i, Placed(t.index, log[t.index - 1]))
      && xs[i].event.Submit? && xs[i].event.command == log[t.index - 1].command
  {
    hide C.Inv, C.Grows, Follows, Replay, Execute, CommittedLog;
    var at, p, t := op.answer.at, op.answer.server, ThreadOf(run, op);
    var a := h[at];
    assert Good(run[at], a, ok);
    assert Held(run[at], a, ok, p);
    var n := run[at].cluster.nodes[p].lastApplied;
    var mine := a.peers[p].log[..n];
    assert ThreadOk(mine, ok, t);
    HandedOverStays(run, h, ok, at, p, log);
    assert log[..t.index - 1] == mine[..t.index - 1];
    StartedBy(run[at].cluster, a, p, n, t.index);
    i := StartedIn(run, xs, at, Placed(t.index, log[t.index - 1]));
  }

  lemma StartedBy(s: Cluster.State, a: C.State, p: nat, n: nat, k: nat)
    requires C.Inv(a) && Follows(s, a) && p < |a.peers| && 0 < k <= n <= |a.peers[p].log|
    ensures Placed(k, a.peers[p].log[..n][k - 1]) in s.started
  {
    assert C.LogOk(a, p);
    EntriesWereStarted(s, a, a.peers[p].log, k);
  }

  /** What a server has handed over at some moment is a prefix of the committed log. */
  lemma HandedOverStays(run: seq<World>, h: seq<C.State>, ok: Command -> bool, i: nat, p: nat, log: seq<Entry>)
    requires StepHistory(run, h, ok) && i < |run| && p < |run[i].services| && CommittedLog(h[|run| - 1], log)
    ensures p < |run[i].cluster.nodes| && p < |h[i].peers|
    ensures var n := run[i].cluster.nodes[p].lastApplied; n <= |h[i].peers[p].log| && h[i].peers[p].log[..n] <= log
  {
    hide C.Inv, C.Grows, Held;
    assert Good(run[i], h[i], ok) && C.Grows(h[i], h[|run| - 1]);
    HandedOverCommitted(run[i].cluster, h[i], p);
    var n := run[i].cluster.nodes[p].lastApplied;
    var t := h[i].peers[p].term;
    C.PrefixCommittedGrows(h[i], h[|run| - 1], h[i].peers[p].log[..n], t, t);
  }

  lemma HandedOverCommitted(s: Cluster.State, a: C.State, p: nat)
    requires C.Inv(a) && Follows(s, a) && p < |s.nodes|
    ensures var n := s.nodes[p].lastApplied;
      && p < |a.peers| && n <= |a.peers[p].log| && C.PrefixCommitted(a, a.peers[p].log[..n], a.peers[p].term)
  {
    assert NodeRel(s.nodes[p], a, p) && C.CommitOk(a, p);
    var log := a.peers[p].log;
    C.PrefixCommittedShorter(a, log[..a.peers[p].commit], log[..s.nodes[p].lastApplied], a.peers[p].term);
  }

  // ---------------------------------------------------------------- the outcome of a Put

  /** Places of the log that hold attempts of an operation. */
  ghost function AttemptsIn(log: seq<Entry>, ids: set<int>): set<nat> {
    set k: nat | k < |log| && log[k].command.Do? && log[k].command.id in ids
  }

  /** Attempts in the committed log are attempts of the run. */
  lemma AttemptMade(run: seq<World>, xs: seq<Happening>, h: seq<C.State>, ok: Command -> bool, log: seq<Entry>, op: Op,
                    k: nat) returns (i: nat)
    requires Trace(run, xs) && StepHistory(run, h, ok) && CommittedLog(h[|xs|], log) && Issues(run, xs, op)
    requires k in AttemptsIn(log, op.ids)
    ensures i < |xs| && PlacedAt(run, xs, i, Placed(k + 1, log[k])) && Tries(xs[i], op.ids)
    ensures xs[i].event.command == log[k].command && log[k].command.request == op.request && op.invoked <= i
  {
    hide C.Inv, C.Grows, C.Sound, AllHeld;
    assert Good(run[|xs|], h[|xs|], ok);
    CommittedLogSound(h[|xs|], log);
    i := Origin(run, xs, h, ok, log, k + 1);
  }

  /** An id stands at one place of the log. */
  lemma OnePlace(run: seq<World>, xs: seq<Happening>, h: seq<C.State>, ok: Command -> bool, log: seq<Entry>, op: Op,
                 k: nat, l: nat)
    requires Trace(run, xs) && StepHistory(run, h, ok) && CommittedLog(h[|xs|], log) && Issues(run, xs, op)
    requires k in AttemptsIn(log, op.ids) && l in AttemptsIn(log, op.ids)
    requires log[k].command.id == log[l].command.id
    ensures k == l
  {
    hide Trace, StepHistory, CommittedLog, Possible;
    var i := AttemptMade(run, xs, h, ok, log, op, k);
    var j := AttemptMade(run, xs, h, ok, log, op, l);
  }

  /** Whatever is committed when: OK means that exactly one attempt took effect, ErrVersion that
      none did, ErrMaybe at most one. After ErrNoKey only an attempt that was started after the
      answered one can take effect; if there is none, ErrNoKey means never. */
  lemma PutOutcomes(run: seq<World>, xs: seq<Happening>, h: seq<C.State>, ok: Command -> bool, log: seq<Entry>, op: Op)
    requires Trace(run, xs) && StepHistory(run, h, ok) && CommittedLog(h[|xs|], log)
    requires Issues(run, xs, op) && op.answer.Answer? && op.request.Put?
    ensures var w := Winners(log, AttemptsIn(log, op.ids));
      && |w| <= 1
      && match Result(run, op)
         case PutReply(OK) => w == {ThreadOf(run, op).index - 1}
         case PutReply(ErrVersion) => w == {}
         case PutReply(ErrNoKey) =>
           && (forall k | k in w :: StartedLater(run, xs, op, Placed(k + 1, log[k])))
           && (InTurn(run, xs, op) ==> w == {})
         case PutReply(ErrMaybe) => !op.answer.first && ThreadOf(run, op).index - 1 !in w
         case _ => false
  {
    hide Trace, StepHistory, CommittedLog, ReplyAt, Succeeds;
    var i := AnswerInLog(run, xs, h, ok, log, op);
    var at, attempts := ThreadOf(run, op).index - 1, AttemptsIn(log, op.ids);
    AreAttempts(run, xs, h, ok, log, op, at);
    KvRaft.PutOutcomes(log, attempts, at, op.answer.first, op.request.key, op.request.version);
    if Result(run, op) == PutReply(ErrNoKey) {
      forall k | k in Winners(log, attempts)
        ensures StartedLater(run, xs, op, Placed(k + 1, log[k])) && !InTurn(run, xs, op)
      {
        var j := AttemptMade(run, xs, h, ok, log, op, k);
        Later(run, xs, h, ok, log, i, j, at + 1, k + 1);
        assert TriesAs(xs[i], ThreadOf(run, op).id);
      }
    }
  }

  /** The entry was started after the answered attempt. */
  ghost predicate StartedLater(run: seq<World>, xs: seq<Happening>, op: Op, x: Placed)
    requires Replied(run, op)
  {
    exists i: nat, j: nat | i < j < |xs| :: TriesAs(xs[i], ThreadOf(run, op).id) && PlacedAt(run, xs, j, x)
  }

  lemma Later(run: seq<World>, xs: seq<Happening>, h: seq<C.State>, ok: Command -> bool, log: seq<Entry>,
              i: nat, j: nat, k: nat, l: nat)
    requires Trace(run, xs) && StepHistory(run, h, ok) && CommittedLog(h[|xs|], log)
    requires 0 < k < l <= |log|
    requires PlacedAt(run, xs, i, Placed(k, log[k - 1])) && PlacedAt(run, xs, j, Placed(l, log[l - 1]))
    ensures i < j
  {
    hide C.Inv, C.Grows, C.Sound, AllHeld;
    assert Good(run[|xs|], h[|xs|], ok);
    CommittedLogSound(h[|xs|], log);
    if j < i {
      InStartOrder(run, xs, h, ok, log, j, i, l, k);
    }
  }

  lemma AreAttempts(run: seq<World>, xs: seq<Happening>, h: seq<C.State>, ok: Command -> bool, log: seq<Entry>, op: Op,
                    at: nat)
    requires Trace(run, xs) && StepHistory(run, h, ok) && CommittedLog(h[|xs|], log)
    requires Issues(run, xs, op) && op.answer.Answer? && op.request.Put?
    requires at in AttemptsIn(log, op.ids) && log[at].command.id == ThreadOf(run, op).id
    ensures KvRaft.Attempts(log, AttemptsIn(log, op.ids), at, op.answer.first, op.request.key, op.request.version)
  {
    hide Trace, StepHistory, CommittedLog, PlacedAt;
    forall k | k in AttemptsIn(log, op.ids)
      ensures IsPut(log[k], op.request.key, op.request.version) && (op.answer.first ==> k == at)
    {
      var i := AttemptMade(run, xs, h, ok, log, op, k);
      if op.answer.first {
        OnePlace(run, xs, h, ok, log, op, k, at);
      }
    }
  }
}
