/** Linearizability of the replicated store, from the servers up: the committed log orders the
    operations of all clerks, each at the entry that took effect or, failing that, at the entry
    that was answered. Calls that failed have ended, so that attempts are started in turn. */
module KvLinear {
  import opened KvStore
  import opened RaftLog
  import opened Cluster
  import opened Rsm
  import opened Quorum
  import C = Consensus
  import opened RaftSafety
  import opened ReplicatedStore
  import opened KvRaft
  import opened KvClerks
  import H = KvHistory

  /** The operations of all clerks: every Start is an attempt of one of them. */
  ghost predicate Clerks(run: seq<World>, xs: seq<Happening>, ops: seq<Op>) {
    && (forall j | 0 <= j < |ops| ::
          Issues(run, xs, ops[j]) && (ops[j].answer.Answer? ==> InTurn(run, xs, ops[j])))
    && (forall i, j | 0 <= i < j < |ops| :: ops[i].ids !! ops[j].ids)
    && (forall i | 0 <= i < |xs| && xs[i].Raft? && xs[i].event.Submit? && xs[i].event.command.Do? :: Known(xs[i], ops))
  }

  ghost predicate Known(x: Happening, ops: seq<Op>) {
    exists j :: 0 <= j < |ops| && Tries(x, ops[j].ids)
  }

  /** A Put that is answered ErrNoKey has no point. */
  predicate NoKey(run: seq<World>, op: Op)
    requires Replied(run, op)
  {
    op.request.Put? && Result(run, op) == PutReply(ErrNoKey)
  }

  /** The operation has its point at place `k` of the log. */
  ghost predicate IsPoint(run: seq<World>, op: Op, log: seq<Entry>, k: nat) {
    && k in AttemptsIn(log, op.ids)
    && (Succeeds(log, k)
        || (&& Replied(run, op) && k + 1 == ThreadOf(run, op).index && !NoKey(run, op)
            && Winners(log, AttemptsIn(log, op.ids)) == {}))
  }

  function Output(run: seq<World>, op: Op): Reply {
    if Replied(run, op) then Result(run, op) else PutReply(ErrMaybe)
  }

  ghost function PointsAt(run: seq<World>, ops: seq<Op>, log: seq<Entry>, k: nat): seq<H.Point> {
    if exists j: nat :: j < |ops| && IsPoint(run, ops[j], log, k) then
      var j: nat :| j < |ops| && IsPoint(run, ops[j], log, k);
      [H.Point(j, k, ops[j].request, Output(run, ops[j]))]
    else []
  }

  /** The points in the first `n` places of the log. */
  ghost function Lin(run: seq<World>, ops: seq<Op>, log: seq<Entry>, n: nat): seq<H.Point> {
    if n == 0 then [] else Lin(run, ops, log, n - 1) + PointsAt(run, ops, log, n - 1)
  }

  /** The point is one of its operation, with the operation's own result. */
  ghost predicate Fits(run: seq<World>, ops: seq<Op>, log: seq<Entry>, p: H.Point) {
    && p.id < |ops| && p.request == ops[p.id].request && p.time in AttemptsIn(log, ops[p.id].ids)
    && (ops[p.id].answer.Answer? ==> Replied(run, ops[p.id]) && p.output == Result(run, ops[p.id]))
  }

  predicate Before(a: Op, b: Op) {
    a.answer.Answer? && a.answer.at <= b.invoked
  }

  /** `lin` is a linearization: its points are in the order of the log, each is an attempt of
      its own operation with the operation's own result, every answered operation has exactly
      one (a Put answered ErrNoKey has none), an operation that was answered before another was
      invoked comes before it, and the model accepts it for every key and ends in the store
      that the committed log gives. */
  ghost predicate Linearized(run: seq<World>, ops: seq<Op>, log: seq<Entry>, lin: seq<H.Point>) {
    && (forall i, j | 0 <= i < j < |lin| :: lin[i].time < lin[j].time && lin[i].id != lin[j].id)
    && (forall i | 0 <= i < |lin| :: Fits(run, ops, log, lin[i]))
    && (forall j: nat | j < |ops| && Replied(run, ops[j]) :: H.HasPoint(lin, j) <==> !NoKey(run, ops[j]))
    && (forall i, j | 0 <= i < |lin| && 0 <= j < |lin| && Before(ops[lin[i].id], ops[lin[j].id]) :: i < j)
    && (forall key :: H.Judge(lin, key) == H.Accepted(H.Current(Replay(map[], log), key)))
  }

  /** Runs with their histories, clerks and committed log. */
  ghost predicate Setting(run: seq<World>, xs: seq<Happening>, h: seq<C.State>, ops: seq<Op>,
                          log: seq<Entry>) {
    Trace(run, xs) && StepHistory(run, h, _ => true) && CommittedLog(h[|xs|], log) && Clerks(run, xs, ops)
  }

  // ---------------------------------------------------------------- owners

  lemma OneOwner(ops: seq<Op>, log: seq<Entry>, k: nat, i: nat, j: nat)
    requires forall i, j | 0 <= i < j < |ops| :: ops[i].ids !! ops[j].ids
    requires i < |ops| && j < |ops| && k in AttemptsIn(log, ops[i].ids) && k in AttemptsIn(log, ops[j].ids)
    ensures i == j
  {
  }

  /** Every operation in the log is an attempt of some clerk. */
  lemma Owner(run: seq<World>, xs: seq<Happening>, h: seq<C.State>, ops: seq<Op>,
              log: seq<Entry>, k: nat) returns (j: nat)
    requires Setting(run, xs, h, ops, log) && k < |log| && log[k].command.Do?
    ensures j < |ops| && k in AttemptsIn(log, ops[j].ids) && log[k].command.request == ops[j].request
  {
    hide Trace, StepHistory, CommittedLog, Possible, Places;
    LogSound(run, xs, h, ops, log);
    var i := Origin(run, xs, h, _ => true, log, k + 1);
    assert Known(xs[i], ops);
    var o :| 0 <= o < |ops| && Tries(xs[i], ops[o].ids);
    j := o;
    assert Issues(run, xs, ops[j]);
  }

  lemma LogSound(run: seq<World>, xs: seq<Happening>, h: seq<C.State>, ops: seq<Op>, log: seq<Entry>)
    requires Setting(run, xs, h, ops, log)
    ensures C.Sound(h[|xs|].lead, log)
  {
    hide C.Inv, C.Sound, Clerks;
    assert Good(run[|xs|], h[|xs|], _ => true);
    CommittedLogSound(h[|xs|], log);
  }

  // ---------------------------------------------------------------- results

  /** At its point the operation gets its own result, or ErrMaybe in its place. */
  lemma PointReply(run: seq<World>, xs: seq<Happening>, h: seq<C.State>, ops: seq<Op>,
                   log: seq<Entry>, j: nat, k: nat)
    requires Setting(run, xs, h, ops, log) && j < |ops| && IsPoint(run, ops[j], log, k)
    ensures log[k].command.request == ops[j].request
    ensures var r, o := ReplyAt(log, k + 1), Output(run, ops[j]);
      !(ops[j].request.Put? && r == PutReply(ErrNoKey)) && (o == r || (ops[j].request.Put? && o == PutReply(ErrMaybe)))
  {
    hide Trace, StepHistory, CommittedLog, PlacedAt, InTurn;
    var op := ops[j];
    assert Issues(run, xs, op);
    var i := AttemptMade(run, xs, h, _ => true, log, op, k);
    if Replied(run, op) {
      var s := AnswerInLog(run, xs, h, _ => true, log, op);
      if k + 1 != ThreadOf(run, op).index {
        LateWinner(run, xs, h, log, op, k);
      }
    }
  }

  /** Another attempt took effect before the answered one, which then found a later version. */
  lemma LateWinner(run: seq<World>, xs: seq<Happening>, h: seq<C.State>, log: seq<Entry>, op: Op,
                   k: nat)
    requires Trace(run, xs) && StepHistory(run, h, _ => true) && CommittedLog(h[|xs|], log)
    requires Issues(run, xs, op) && Replied(run, op) && InTurn(run, xs, op) && op.request.Put?
    requires k in AttemptsIn(log, op.ids) && Succeeds(log, k) && k + 1 != ThreadOf(run, op).index
    ensures Result(run, op) == PutReply(ErrMaybe)
  {
    hide Trace, StepHistory, CommittedLog, InTurn;
    KvClerks.PutOutcomes(run, xs, h, _ => true, log, op);
    var s := AnswerInLog(run, xs, h, _ => true, log, op);
    var at, w := ThreadOf(run, op).index - 1, Winners(log, AttemptsIn(log, op.ids));
    assert k in w;
  }

  // ---------------------------------------------------------------- the model accepts

  lemma {:induction false} Judged(run: seq<World>, xs: seq<Happening>, h: seq<C.State>, ops: seq<Op>,
                                  log: seq<Entry>, n: nat)
    requires Setting(run, xs, h, ops, log) && n <= |log|
    ensures forall key {:trigger H.Judge(Lin(run, ops, log, n), key)} ::
      H.Judge(Lin(run, ops, log, n), key) == H.Accepted(H.Current(Replay(map[], log[..n]), key))
    decreases n
  {
    if n > 0 {
      hide Setting, IsPoint, H.Judge, Execute;
      Judged(run, xs, h, ops, log, n - 1);
      ReplayNext(log, n - 1);
      var before, after := Replay(map[], log[..n - 1]), Replay(map[], log[..n]);
      var lin, c := Lin(run, ops, log, n - 1), log[n - 1].command;
      if exists j: nat :: j < |ops| && IsPoint(run, ops[j], log, n - 1) {
        var p := PointsAt(run, ops, log, n - 1)[0];
        IsAttempt(run, ops[p.id], log, n - 1);
        PointReply(run, xs, h, ops, log, p.id, n - 1);
        ReplayPositive(log[..n - 1]);
        H.PointAccepted(before, lin, p, after);
      } else {
        NoEffect(run, xs, h, ops, log, n - 1);
        assert Lin(run, ops, log, n) == lin;
      }
    }
  }

  lemma {:induction false} ReplayPositive(log: seq<Entry>)
    ensures Positive(Replay(map[], log))
    decreases |log|
  {
    if log != [] {
      var before, c := log[..|log| - 1], log[|log| - 1].command;
      ReplayPositive(before);
      if c.Do? {
        ExecutePositive(Replay(map[], before), c.request);
      }
    }
  }

  lemma IsAttempt(run: seq<World>, op: Op, log: seq<Entry>, k: nat)
    requires IsPoint(run, op, log, k)
    ensures k < |log| && log[k].command.Do?
  {
  }

  /** Where there is no point, nothing changes. */
  lemma NoEffect(run: seq<World>, xs: seq<Happening>, h: seq<C.State>, ops: seq<Op>,
                 log: seq<Entry>, k: nat)
    requires Setting(run, xs, h, ops, log) && k < |log|
    requires !exists j: nat :: j < |ops| && IsPoint(run, ops[j], log, k)
    ensures Replay(map[], log[..k + 1]) == Replay(map[], log[..k])
  {
    hide Setting;
    ReplayNext(log, k);
    if log[k].command.Do? {
      var j := Owner(run, xs, h, ops, log, k);
      assert !IsPoint(run, ops[j], log, k);
    }
  }

  // ---------------------------------------------------------------- order

  ghost predicate Ascending(run: seq<World>, ops: seq<Op>, log: seq<Entry>, lin: seq<H.Point>, n: nat) {
    && (forall i, j | 0 <= i < j < |lin| :: lin[i].time < lin[j].time)
    && (forall i | 0 <= i < |lin| :: lin[i].time < n && OwnPoint(run, ops, log, lin[i]))
  }

  /** Points lie within the log, in its order. */
  lemma {:induction false} InLogOrder(run: seq<World>, ops: seq<Op>, log: seq<Entry>, n: nat)
    ensures Ascending(run, ops, log, Lin(run, ops, log, n), n)
    decreases n
  {
    hide OwnPoint, PointsAt;
    if n > 0 {
      InLogOrder(run, ops, log, n - 1);
      PointsAtOwn(run, ops, log, n - 1);
    }
  }

  lemma PointsAtOwn(run: seq<World>, ops: seq<Op>, log: seq<Entry>, k: nat)
    ensures var ps := PointsAt(run, ops, log, k);
      |ps| <= 1 && forall i | 0 <= i < |ps| :: ps[i].time == k && OwnPoint(run, ops, log, ps[i])
  {
    hide IsPoint;
  }

  ghost predicate OwnPoint(run: seq<World>, ops: seq<Op>, log: seq<Entry>, p: H.Point) {
    && p.id < |ops| && IsPoint(run, ops[p.id], log, p.time)
    && p == H.Point(p.id, p.time, ops[p.id].request, Output(run, ops[p.id]))
  }

  /** Wherever an operation has its point, the linearization has it. */
  lemma {:induction false} Listed(run: seq<World>, ops: seq<Op>, log: seq<Entry>, n: nat, j: nat, k: nat)
    requires forall i, j | 0 <= i < j < |ops| :: ops[i].ids !! ops[j].ids
    requires k < n && j < |ops| && IsPoint(run, ops[j], log, k)
    ensures H.HasPoint(Lin(run, ops, log, n), j)
    decreases n
  {
    hide IsPoint, PointsAt;
    var lin, before := Lin(run, ops, log, n), Lin(run, ops, log, n - 1);
    if k < n - 1 {
      Listed(run, ops, log, n - 1, j, k);
      var i :| 0 <= i < |before| && before[i].id == j;
      assert lin[i].id == j;
    } else {
      PointIs(run, ops, log, j, k);
      assert lin[|before|].id == j;
    }
  }

  lemma PointIs(run: seq<World>, ops: seq<Op>, log: seq<Entry>, j: nat, k: nat)
    requires forall i, j | 0 <= i < j < |ops| :: ops[i].ids !! ops[j].ids
    requires j < |ops| && IsPoint(run, ops[j], log, k)
    ensures |PointsAt(run, ops, log, k)| == 1 && PointsAt(run, ops, log, k)[0].id == j
  {
    var p := PointsAt(run, ops, log, k)[0];
    OneOwner(ops, log, k, p.id, j);
  }

  /** No operation has two points. */
  lemma OnePoint(op: Op, run: seq<World>, log: seq<Entry>, k: nat, l: nat)
    requires IsPoint(run, op, log, k) && IsPoint(run, op, log, l)
    requires |Winners(log, AttemptsIn(log, op.ids))| <= 1
    ensures k == l
  {
    var w := Winners(log, AttemptsIn(log, op.ids));
    assert Succeeds(log, k) ==> k in w;
    assert Succeeds(log, l) ==> l in w;
    if k in w && l in w && k != l {
      SubsetCard({k, l}, w);
    }
  }

  /** An operation that was answered before another was invoked has the earlier point. */
  lemma RealTime(run: seq<World>, xs: seq<Happening>, h: seq<C.State>, ops: seq<Op>, log: seq<Entry>,
                 a: nat, b: nat, k: nat, l: nat)
    requires Setting(run, xs, h, ops, log) && a < |ops| && b < |ops| && Before(ops[a], ops[b])
    requires IsPoint(run, ops[a], log, k) && IsPoint(run, ops[b], log, l)
    ensures k < l
  {
    hide StepHistory, Trace, CommittedLog, Possible, Places;
    assert Issues(run, xs, ops[a]) && Issues(run, xs, ops[b]);
    var i := AttemptMade(run, xs, h, _ => true, log, ops[a], k);
    var j := AttemptMade(run, xs, h, _ => true, log, ops[b], l);
    var s := AnswerInLog(run, xs, h, _ => true, log, ops[a]);
    assert TriesAs(xs[s], ThreadOf(run, ops[a]).id);
    LogSound(run, xs, h, ops, log);
    InStartOrder(run, xs, h, _ => true, log, i, j, k + 1, l + 1);
  }

  /** In every run in which each command read is the next one, whatever is lost, committed late,
      compacted or restarted, the operations of all clerks have a linearization. */
  lemma Linearizable(run: seq<World>, xs: seq<Happening>, ops: seq<Op>)
    returns (h: seq<C.State>, log: seq<Entry>, lin: seq<H.Point>)
    requires Trace(run, xs) && InOrder(run, xs) && Clerks(run, xs, ops)
    ensures StepHistory(run, h, _ => true) && CommittedLog(h[|xs|], log) && Linearized(run, ops, log, lin)
  {
    hide Good, Clerks, CommittedLog, IsPoint, Issues, H.Judge, PointsAt;
    h := InOrderHolds(run, xs, _ => true);
    log := FinalLog(run, xs, h);
    lin := Lin(run, ops, log, |log|);
    Judged(run, xs, h, ops, log, |log|);
    assert log[..|log|] == log;
    InLogOrder(run, ops, log, |log|);
    Sorted(run, xs, h, ops, log, lin);
    Complete(run, xs, h, ops, log, lin);
  }

  lemma FinalLog(run: seq<World>, xs: seq<Happening>, h: seq<C.State>) returns (log: seq<Entry>)
    requires Trace(run, xs) && StepHistory(run, h, _ => true)
    ensures CommittedLog(h[|xs|], log)
  {
    assert Good(run[|xs|], h[|xs|], _ => true);
    log := CommittedLogExists(h[|xs|]);
  }

  lemma Sorted(run: seq<World>, xs: seq<Happening>, h: seq<C.State>, ops: seq<Op>, log: seq<Entry>,
               lin: seq<H.Point>)
    requires Setting(run, xs, h, ops, log)
    requires Ascending(run, ops, log, lin, |log|)
    ensures forall i, j | 0 <= i < j < |lin| :: lin[i].id != lin[j].id
    ensures forall i | 0 <= i < |lin| :: Fits(run, ops, log, lin[i])
    ensures forall i, j | 0 <= i < |lin| && 0 <= j < |lin| && Before(ops[lin[i].id], ops[lin[j].id]) :: i < j
  {
    hide Setting, Winners, Succeeds;
    forall i, j | 0 <= i < j < |lin| ensures lin[i].id != lin[j].id {
      assert OwnPoint(run, ops, log, lin[i]) && OwnPoint(run, ops, log, lin[j]);
      FewWinners(run, xs, h, ops, log, lin[i].id);
      if lin[i].id == lin[j].id {
        OnePoint(ops[lin[i].id], run, log, lin[i].time, lin[j].time);
      }
    }
    forall i | 0 <= i < |lin| ensures Fits(run, ops, log, lin[i]) {
      assert OwnPoint(run, ops, log, lin[i]);
      Answers(run, xs, h, ops, log, lin[i].id);
    }
    forall i, j | 0 <= i < |lin| && 0 <= j < |lin| && Before(ops[lin[i].id], ops[lin[j].id]) ensures i < j {
      assert OwnPoint(run, ops, log, lin[i]) && OwnPoint(run, ops, log, lin[j]);
      RealTime(run, xs, h, ops, log, lin[i].id, lin[j].id, lin[i].time, lin[j].time);
    }
  }

  lemma Answers(run: seq<World>, xs: seq<Happening>, h: seq<C.State>, ops: seq<Op>, log: seq<Entry>, j: nat)
    requires Setting(run, xs, h, ops, log) && j < |ops|
    ensures ops[j].answer.Answer? ==> Replied(run, ops[j])
  {
    assert Issues(run, xs, ops[j]);
  }

  /** At most one attempt of an operation succeeds. */
  lemma FewWinners(run: seq<World>, xs: seq<Happening>, h: seq<C.State>, ops: seq<Op>, log: seq<Entry>, j: nat)
    requires Setting(run, xs, h, ops, log) && j < |ops|
    ensures |Winners(log, AttemptsIn(log, ops[j].ids))| <= 1
  {
    hide Trace, StepHistory, CommittedLog, PlacedAt, Succeeds;
    var op := ops[j];
    assert Issues(run, xs, op);
    forall k | k in AttemptsIn(log, op.ids) ensures log[k].command.request == op.request {
      var i := AttemptMade(run, xs, h, _ => true, log, op, k);
    }
    if op.request.Put? {
      WinnersAtMostOne(log, AttemptsIn(log, op.ids), op.request.key, op.request.version);
    } else {
      NoWinners(log, op);
    }
  }

  lemma NoWinners(log: seq<Entry>, op: Op)
    requires op.request.Get? && forall k | k in AttemptsIn(log, op.ids) :: log[k].command.request == op.request
    ensures Winners(log, AttemptsIn(log, op.ids)) == {}
  {
  }

  /** Every answered operation has a point, unless it is a Put answered ErrNoKey. */
  lemma Complete(run: seq<World>, xs: seq<Happening>, h: seq<C.State>, ops: seq<Op>, log: seq<Entry>,
                 lin: seq<H.Point>)
    requires Setting(run, xs, h, ops, log) && lin == Lin(run, ops, log, |log|) && Ascending(run, ops, log, lin, |log|)
    ensures forall j: nat | j < |ops| && Replied(run, ops[j]) :: H.HasPoint(lin, j) <==> !NoKey(run, ops[j])
  {
    hide Setting, PointsAt, IsPoint, NoKey;
    forall j: nat | j < |ops| && Replied(run, ops[j]) ensures H.HasPoint(lin, j) <==> !NoKey(run, ops[j]) {
      if NoKey(run, ops[j]) {
        forall i | 0 <= i < |lin| ensures lin[i].id != j {
          assert OwnPoint(run, ops, log, lin[i]);
          NoPoint(run, xs, h, ops, log, j, lin[i].time);
        }
      } else {
        var k := SomePoint(run, xs, h, ops, log, j);
        Disjoint(run, xs, h, ops, log);
        Listed(run, ops, log, |log|, j, k);
      }
    }
  }

  lemma Disjoint(run: seq<World>, xs: seq<Happening>, h: seq<C.State>, ops: seq<Op>, log: seq<Entry>)
    requires Setting(run, xs, h, ops, log)
    ensures forall i, j | 0 <= i < j < |ops| :: ops[i].ids !! ops[j].ids
  {
  }

  lemma NoPoint(run: seq<World>, xs: seq<Happening>, h: seq<C.State>, ops: seq<Op>, log: seq<Entry>,
                j: nat, k: nat)
    requires Setting(run, xs, h, ops, log) && j < |ops| && Replied(run, ops[j]) && NoKey(run, ops[j])
    ensures !IsPoint(run, ops[j], log, k)
  {
    hide Trace, StepHistory, CommittedLog, Succeeds;
    assert Issues(run, xs, ops[j]);
    var w := Winners(log, AttemptsIn(log, ops[j].ids));
    assert IsPoint(run, ops[j], log, k) ==> k in w;
    KvClerks.PutOutcomes(run, xs, h, _ => true, log, ops[j]);
  }

  lemma SomePoint(run: seq<World>, xs: seq<Happening>, h: seq<C.State>, ops: seq<Op>, log: seq<Entry>,
                  j: nat) returns (k: nat)
    requires Setting(run, xs, h, ops, log) && j < |ops| && Replied(run, ops[j]) && !NoKey(run, ops[j])
    ensures k < |log| && IsPoint(run, ops[j], log, k)
  {
    hide Trace, StepHistory, CommittedLog, PlacedAt, Succeeds, ReplyAt;
    var i := AnswerInLog(run, xs, h, _ => true, log, ops[j]);
    k := ThreadOf(run, ops[j]).index - 1;
    var w := Winners(log, AttemptsIn(log, ops[j].ids));
    if w != {} {
      assert |w| > 0;
      k :| k in w;
    }
  }
}
