/** The assignment of shards to replica groups, as a function of the shard array and the set
    of group ids alone. */
module ShardBalance {

  function Count(shards: seq<int>, g: int): nat {
    multiset(shards)[g]
  }

  /** The group with the fewest shards; ties go to the smallest id. */
  predicate IsLeast(shards: seq<int>, gids: set<int>, g: int) {
    g in gids && forall h | h in gids :: Count(shards, g) < Count(shards, h) || (Count(shards, g) == Count(shards, h) && g <= h)
  }

  /** The group with the most shards; ties go to the smallest id. */
  predicate IsMost(shards: seq<int>, gids: set<int>, g: int) {
    g in gids && forall h | h in gids :: Count(shards, g) > Count(shards, h) || (Count(shards, g) == Count(shards, h) && g <= h)
  }

  lemma Inhabited(gids: set<int>)
    ensures gids == {} || exists g :: g in gids
  {
    assert (forall g :: g !in gids) ==> gids == {};
  }

  lemma {:induction false} LeastExists(shards: seq<int>, gids: set<int>)
    requires gids != {}
    ensures exists g :: IsLeast(shards, gids, g)
    decreases |gids|
  {
    Inhabited(gids);
    var x :| x in gids;
    var rest := gids - {x};
    if rest == {} {
      assert gids == {x};
      assert IsLeast(shards, gids, x);
    } else {
      LeastExists(shards, rest);
      var y :| IsLeast(shards, rest, y);
      var better := Count(shards, x) < Count(shards, y) || (Count(shards, x) == Count(shards, y) && x < y);
      assert IsLeast(shards, gids, if better then x else y);
    }
  }

  lemma {:induction false} MostExists(shards: seq<int>, gids: set<int>)
    requires gids != {}
    ensures exists g :: IsMost(shards, gids, g)
    decreases |gids|
  {
    Inhabited(gids);
    var x :| x in gids;
    var rest := gids - {x};
    if rest == {} {
      assert gids == {x};
      assert IsMost(shards, gids, x);
    } else {
      MostExists(shards, rest);
      var y :| IsMost(shards, rest, y);
      var better := Count(shards, x) > Count(shards, y) || (Count(shards, x) == Count(shards, y) && x < y);
      assert IsMost(shards, gids, if better then x else y);
    }
  }

  ghost function Least(shards: seq<int>, gids: set<int>): (g: int)
    requires gids != {}
    ensures IsLeast(shards, gids, g)
  {
    LeastExists(shards, gids);
    var g :| IsLeast(shards, gids, g);
    g
  }

  ghost function Most(shards: seq<int>, gids: set<int>): (g: int)
    requires gids != {}
    ensures IsMost(shards, gids, g)
  {
    MostExists(shards, gids);
    var g :| IsMost(shards, gids, g);
    g
  }

  /** Where the first shard of a group is. */
  function First(shards: seq<int>, g: int): (i: nat)
    requires g in shards
    ensures i < |shards| && shards[i] == g
  {
    if shards[0] == g then 0 else First(shards[1..], g) + 1
  }

  /** Give every shard from `s` on that has no existing group to the least loaded group. */
  ghost function Assigned(shards: seq<int>, gids: set<int>, s: nat): seq<int>
    requires gids != {} && s <= |shards|
    decreases |shards| - s
  {
    if s == |shards| then shards
    else if shards[s] in gids then Assigned(shards, gids, s + 1)
    else Assigned(shards[s := Least(shards, gids)], gids, s + 1)
  }

  /** The spread is at most one. */
  predicate Even(shards: seq<int>, gids: set<int>) {
    forall g, h | g in gids && h in gids :: Count(shards, g) <= Count(shards, h) + 1
  }

  ghost function Move(shards: seq<int>, gids: set<int>): seq<int>
    requires gids != {} && Count(shards, Most(shards, gids)) > 0
  {
    var mg := Most(shards, gids);
    assert mg in shards;
    shards[First(shards, mg) := Least(shards, gids)]
  }

  predicate Uneven(shards: seq<int>, most: int, least: int) {
    Count(shards, most) >= Count(shards, least) + 2
  }

  // ---------------------------------------------------------------- the measure

  ghost function SumSquares(shards: seq<int>, gids: set<int>): nat
    decreases |gids|
  {
    if gids == {} then 0
    else
      Inhabited(gids);
      var g :| g in gids;
      Count(shards, g) * Count(shards, g) + SumSquares(shards, gids - {g})
  }

  lemma {:induction false} SumSquaresTake(shards: seq<int>, gids: set<int>, x: int)
    requires x in gids
    ensures SumSquares(shards, gids) == Count(shards, x) * Count(shards, x) + SumSquares(shards, gids - {x})
    decreases |gids|
  {
    var g :| g in gids && SumSquares(shards, gids) == Count(shards, g) * Count(shards, g) + SumSquares(shards, gids - {g});
    if g != x {
      SumSquaresTake(shards, gids - {g}, x);
      SumSquaresTake(shards, gids - {x}, g);
      assert gids - {g} - {x} == gids - {x} - {g};
    }
  }

  lemma {:induction false} SumSquaresSame(a: seq<int>, b: seq<int>, gids: set<int>)
    requires forall g | g in gids :: Count(a, g) == Count(b, g)
    ensures SumSquares(a, gids) == SumSquares(b, gids)
    decreases |gids|
  {
    if gids != {} {
      Inhabited(gids);
      var g :| g in gids;
      SumSquaresTake(a, gids, g);
      SumSquaresTake(b, gids, g);
      SumSquaresSame(a, b, gids - {g});
    }
  }

  lemma SquareDrop(a: nat, b: nat)
    requires a >= b + 2
    ensures (a - 1) * (a - 1) + (b + 1) * (b + 1) < a * a + b * b
  {
    assert (a - 1) * (a - 1) == a * a - 2 * a + 1;
    assert (b + 1) * (b + 1) == b * b + 2 * b + 1;
  }

  /** One move from the most to the least loaded group changes these two counts by one. */
  lemma MoveCounts(shards: seq<int>, gids: set<int>)
    requires gids != {} && Uneven(shards, Most(shards, gids), Least(shards, gids))
    ensures var mg, lg := Most(shards, gids), Least(shards, gids);
      var m := Move(shards, gids);
      && mg != lg && |m| == |shards|
      && Count(m, mg) == Count(shards, mg) - 1 && Count(m, lg) == Count(shards, lg) + 1
      && (forall g | g != mg && g != lg :: Count(m, g) == Count(shards, g))
  {
    var mg, lg := Most(shards, gids), Least(shards, gids);
    assert mg in shards;
    UpdateCounts(shards, First(shards, mg), lg);
  }

  lemma UpdateCounts(shards: seq<int>, s: nat, g: int)
    requires s < |shards|
    ensures multiset(shards[s := g]) == multiset(shards) - multiset{shards[s]} + multiset{g}
  {
  }

  /** The sum of squared counts falls on every move. */
  lemma MoveDecreases(shards: seq<int>, gids: set<int>)
    requires gids != {} && Uneven(shards, Most(shards, gids), Least(shards, gids))
    ensures SumSquares(Move(shards, gids), gids) < SumSquares(shards, gids)
  {
    var mg, lg := Most(shards, gids), Least(shards, gids);
    var m := Move(shards, gids);
    MoveCounts(shards, gids);
    var rest := gids - {mg} - {lg};
    SumSquaresTake(shards, gids, mg);
    SumSquaresTake(shards, gids - {mg}, lg);
    SumSquaresTake(m, gids, mg);
    SumSquaresTake(m, gids - {mg}, lg);
    SumSquaresSame(shards, m, rest);
    SquareDrop(Count(shards, mg), Count(shards, lg));
  }

  /** Move shards until the spread is at most one. */
  ghost function Evened(shards: seq<int>, gids: set<int>): seq<int>
    requires gids != {}
    decreases SumSquares(shards, gids)
  {
    if Uneven(shards, Most(shards, gids), Least(shards, gids)) then
      MoveDecreases(shards, gids);
      Evened(Move(shards, gids), gids)
    else shards
  }

  /** The result of Rebalance. */
  ghost function Rebalanced(shards: seq<int>, gids: set<int>): seq<int> {
    if gids == {} then seq(|shards|, _ => 0) else Evened(Assigned(shards, gids, 0), gids)
  }

  // ---------------------------------------------------------------- what it achieves

  ghost predicate AllIn(shards: seq<int>, gids: set<int>) {
    forall s | 0 <= s < |shards| :: shards[s] in gids
  }

  lemma {:induction false} AssignedAllIn(shards: seq<int>, gids: set<int>, s: nat)
    requires gids != {} && s <= |shards| && (forall i | 0 <= i < s :: shards[i] in gids)
    ensures |Assigned(shards, gids, s)| == |shards| && AllIn(Assigned(shards, gids, s), gids)
    ensures forall i | 0 <= i < |shards| && shards[i] in gids :: Assigned(shards, gids, s)[i] == shards[i]
    decreases |shards| - s
  {
    if s < |shards| {
      if shards[s] in gids {
        AssignedAllIn(shards, gids, s + 1);
      } else {
        AssignedAllIn(shards[s := Least(shards, gids)], gids, s + 1);
      }
    }
  }

  lemma {:induction false} EvenedEven(shards: seq<int>, gids: set<int>)
    requires gids != {} && AllIn(shards, gids)
    ensures |Evened(shards, gids)| == |shards|
    ensures AllIn(Evened(shards, gids), gids) && Even(Evened(shards, gids), gids)
    decreases SumSquares(shards, gids)
  {
    if Uneven(shards, Most(shards, gids), Least(shards, gids)) {
      MoveDecreases(shards, gids);
      MoveCounts(shards, gids);
      EvenedEven(Move(shards, gids), gids);
    }
  }

  /** For every group set and every starting assignment, Rebalance ends with every shard on
      an existing group and group sizes that differ by at most one. */
  lemma RebalancedIsBalanced(shards: seq<int>, gids: set<int>)
    ensures |Rebalanced(shards, gids)| == |shards|
    ensures gids != {} ==> AllIn(Rebalanced(shards, gids), gids) && Even(Rebalanced(shards, gids), gids)
    ensures gids == {} ==> forall s | 0 <= s < |shards| :: Rebalanced(shards, gids)[s] == 0
  {
    if gids != {} {
      AssignedAllIn(shards, gids, 0);
      EvenedEven(Assigned(shards, gids, 0), gids);
    }
  }

  lemma EvenIsDone(shards: seq<int>, gids: set<int>)
    requires gids != {} && Even(shards, gids)
    ensures Evened(shards, gids) == shards
  {
  }

  /** Rebalancing a balanced configuration changes nothing. */
  lemma RebalanceIdempotent(shards: seq<int>, gids: set<int>)
    ensures Rebalanced(Rebalanced(shards, gids), gids) == Rebalanced(shards, gids)
  {
    RebalancedIsBalanced(shards, gids);
    if gids != {} {
      AssignedNothing(Rebalanced(shards, gids), gids, 0);
      EvenIsDone(Rebalanced(shards, gids), gids);
    }
  }

  lemma {:induction false} AssignedNothing(shards: seq<int>, gids: set<int>, s: nat)
    requires gids != {} && AllIn(shards, gids) && s <= |shards|
    ensures Assigned(shards, gids, s) == shards
    decreases |shards| - s
  {
    if s < |shards| {
      AssignedNothing(shards, gids, s + 1);
    }
  }

  // ---------------------------------------------------------------- minimal movement

  /** Joining groups never get ahead of the groups that were there. */
  ghost predicate Behind(shards: seq<int>, stay: set<int>, join: set<int>) {
    && Even(shards, stay)
    && forall j, g | j in join && g in stay :: Count(shards, j) <= Count(shards, g) + 1
  }

  lemma BehindMove(shards: seq<int>, stay: set<int>, join: set<int>)
    requires stay + join != {} && Behind(shards, stay, join)
    requires Uneven(shards, Most(shards, stay + join), Least(shards, stay + join))
    ensures Least(shards, stay + join) in join
    ensures Behind(Move(shards, stay + join), stay, join)
  {
    MoveCounts(shards, stay + join);
  }

  lemma MoveWhere(shards: seq<int>, gids: set<int>, s: nat)
    requires gids != {} && Uneven(shards, Most(shards, gids), Least(shards, gids)) && s < |shards|
    ensures |Move(shards, gids)| == |shards|
    ensures Move(shards, gids)[s] == shards[s] || Move(shards, gids)[s] == Least(shards, gids)
  {
  }

  lemma {:induction false} EvenedToJoiners(shards: seq<int>, stay: set<int>, join: set<int>)
    requires stay + join != {} && Behind(shards, stay, join) && AllIn(shards, stay + join)
    ensures |Evened(shards, stay + join)| == |shards|
    ensures forall s | 0 <= s < |shards| ::
      Evened(shards, stay + join)[s] == shards[s] || Evened(shards, stay + join)[s] in join
    decreases SumSquares(shards, stay + join)
  {
    hide SumSquares, Behind, Count, Move;
    var gids := stay + join;
    if Uneven(shards, Most(shards, gids), Least(shards, gids)) {
      MoveDecreases(shards, gids);
      MoveCounts(shards, gids);
      BehindMove(shards, stay, join);
      forall s: nat | s < |shards|
        ensures Move(shards, gids)[s] == shards[s] || Move(shards, gids)[s] in join
      {
        MoveWhere(shards, gids, s);
      }
      EvenedToJoiners(Move(shards, gids), stay, join);
    }
  }

  lemma JoinersEmpty(shards: seq<int>, stay: set<int>, join: set<int>)
    requires AllIn(shards, stay) && stay !! join
    ensures forall j | j in join :: Count(shards, j) == 0
  {
    forall j | j in join ensures Count(shards, j) == 0 {
      assert j !in shards;
    }
  }

  /** From a balanced, fully assigned configuration, groups that join receive shards and no
      other group does. */
  lemma JoinMovesOnlyToJoiners(shards: seq<int>, stay: set<int>, join: set<int>)
    requires AllIn(shards, stay) && Even(shards, stay) && stay !! join && stay + join != {}
    ensures |Rebalanced(shards, stay + join)| == |shards|
    ensures forall s | 0 <= s < |shards| ::
      Rebalanced(shards, stay + join)[s] == shards[s] || Rebalanced(shards, stay + join)[s] in join
  {
    JoinersEmpty(shards, stay, join);
    AssignedNothing(shards, stay + join, 0);
    EvenedToJoiners(shards, stay, join);
  }

  lemma {:induction false} AssignedStaysEven(shards: seq<int>, gids: set<int>, s: nat)
    requires gids != {} && s <= |shards| && Even(shards, gids)
    ensures Even(Assigned(shards, gids, s), gids)
    decreases |shards| - s
  {
    if s < |shards| {
      if shards[s] in gids {
        AssignedStaysEven(shards, gids, s + 1);
      } else {
        UpdateCounts(shards, s, Least(shards, gids));
        AssignedStaysEven(shards[s := Least(shards, gids)], gids, s + 1);
      }
    }
  }

  /** When groups leave a balanced, fully assigned configuration and some group stays, only
      the shards of the departed groups move. */
  lemma LeaveMovesOnlyDeparted(shards: seq<int>, gids: set<int>, leave: set<int>)
    requires AllIn(shards, gids) && Even(shards, gids) && gids - leave != {}
    ensures |Rebalanced(shards, gids - leave)| == |shards|
    ensures forall s | 0 <= s < |shards| && shards[s] !in leave ::
      Rebalanced(shards, gids - leave)[s] == shards[s]
  {
    var stay := gids - leave;
    AssignedStaysEven(shards, stay, 0);
    AssignedAllIn(shards, stay, 0);
    EvenIsDone(Assigned(shards, stay, 0), stay);
  }
}
