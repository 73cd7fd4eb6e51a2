/** A Put that reports ErrNoKey takes effect all the same, if the attempt that is answered is
    started before an earlier attempt of the same Put, whose handler was held up. */
module LateStart {
  import opened KvStore
  import opened RaftLog
  import opened Cluster
  import opened Rsm
  import opened ReplicatedStore
  import opened ApplyOrder
  import opened DivergentRuns
  import opened KvRaft
  import opened KvClerks
  import opened LateRun

  ghost predicate Starts(h: Happening, c: Command) {
    h.Raft? && h.event.Submit? && h.event.command == c
  }

  /** For every key, value and positive version there is a run, orderly in all else, in which a
      Put returns ErrNoKey and takes effect: its answered attempt is started before the other. */
  lemma ErrNoKeyThenApplied(key: string, value: string, version: nat)
    returns (run: seq<World>, hs: seq<Happening>, op: Op)
    requires version > 0
    ensures Trace(run, hs) && InOrder(run, hs) && Issues(run, hs, op)
    ensures op.request == Put(key, value, version) && op.answer.Answer? && Result(run, op) == PutReply(ErrNoKey)
    ensures exists i, j | 0 <= i < j < |hs| ::
      Starts(hs[i], Do(2, 1, op.request)) && Starts(hs[j], Do(1, 1, op.request)) && ThreadOf(run, op).id == 2
    ensures |run[|hs|].services| > 0 && key in run[|hs|].services[0].store
    ensures run[|hs|].services[0].store[key] == Item(value, version + 1)
  {
    hide Possible, After, RollsBack, Fifo, Orderly, LateLog, Execute, ReplyAt;
    var es, request := LateLog(key, value, version), Put(key, value, version);
    LateAttempt(key, value, version);
    OnceEach(key, value, version);
    RestRead(es, request, |es|);
    var r := ReplyAt(es, 1);
    run, hs :| Ends(Regular, run, hs, Ended(es, |es|, r));
    assert es[..|es|] == es;
    forall i | 0 <= i < |hs| ensures Fifo(hs[i]) && !RollsBack(run[i], hs[i]) {
      assert Allowed(Regular, run[i], hs[i]);
    }
    FifoInOrder(run, hs);
    op := Op(request, {1, 2}, 0, KvClerks.Answer(|hs|, 0, 0, false));
    OwnAttempts(run, hs, key, value, version, op);
    var i := CommandFrom(hs, 0);
    var j := CommandFrom(hs, version + 1);
    if j <= i {
      CommandsGrow(hs, j, i);
    }
    assert Starts(hs[i], Do(2, 1, request)) && Starts(hs[j], Do(1, 1, request));
  }
}
