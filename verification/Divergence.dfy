/** Runs of two servers after which both services have read all they were sent, their servers
    have applied equally far, and their stores differ. */
module Divergence {
  import opened ReplicatedStore
  import opened DivergentRuns

  /** Both servers have applied `n` entries, both services have read all they were sent, and
      their stores differ. */
  ghost predicate Differ(w: World, n: nat) {
    && |w.cluster.nodes| == 2 == |w.services|
    && (forall p | 0 <= p < 2 :: w.cluster.nodes[p].lastApplied == n && w.services[p].queue == [])
    && w.services[0].store != w.services[1].store
  }

  /** In order, but after a snapshot older than what was handed over. */
  lemma StoresCanDiffer() returns (run: seq<World>, hs: seq<Happening>)
    ensures Trace(run, hs) && Differ(run[|hs|], 2)
    ensures forall i | 0 <= i < |hs| :: Fifo(hs[i])
  {
    hide Possible, After;
    TakenBack();
    run, hs :| Ends(FirstInFirstOut, run, hs,
      Scene(Saver(1), Based(2, 2), {ADDED}, Having(S2, 2, []), Having(S1, 1, []), THREE_PUTS));
    assert "y" in S2 && "y" !in S1;
    forall i | 0 <= i < |hs| ensures Fifo(hs[i]) {
      assert Allowed(FirstInFirstOut, run[i], hs[i]);
    }
  }

  /** A wrong snapshot is saved: it stands for the same three entries that the other service
      has read, and differs from that service's store. */
  lemma SnapshotCanBeWrong() returns (run: seq<World>, hs: seq<Happening>)
    ensures Trace(run, hs) && Differ(run[|hs|], 3)
    ensures forall i | 0 <= i < |hs| :: Fifo(hs[i])
    ensures var w := run[|hs|];
      && w.cluster.nodes[1].lastIncludedIndex == w.services[1].position == w.services[0].position == 3
      && w.cluster.nodes[1].snapshot != w.services[0].store
  {
    hide Possible, After;
    var y := GapSaved();
    run, hs :| Ends(FirstInFirstOut, run, hs,
      Scene(Leading(3), y, {}, Having(S3, 3, []), Having(GAP, 3, []), THREE_PUTS));
    assert "y" in S3 && "y" !in GAP;
    forall i | 0 <= i < |hs| ensures Fifo(hs[i]) {
      assert Allowed(FirstInFirstOut, run[i], hs[i]);
    }
  }

  /** Without a snapshot older than what was handed over, but out of order. */
  lemma OvertakingDiverges() returns (run: seq<World>, hs: seq<Happening>)
    ensures Trace(run, hs) && Differ(run[|hs|], 2)
    ensures forall i | 0 <= i < |hs| :: !RollsBack(run[i], hs[i])
    ensures run[|hs|].services[0].position == run[|hs|].services[1].position == 2
  {
    hide Possible, After, RollsBack;
    var x, y := Overtaken();
    run, hs :| Ends(NoneOlder, run, hs, Scene(x, y, {}, Having(RIGHT, 2, []), Having(WRONG, 2, []), TWO_PUTS));
    assert RIGHT["x"] != WRONG["x"];
    forall i | 0 <= i < |hs| ensures !RollsBack(run[i], hs[i]) {
      assert Allowed(NoneOlder, run[i], hs[i]);
    }
  }
}
