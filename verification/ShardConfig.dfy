/** The shard configuration as an object: Join and Leave change its groups, Rebalance its
    shard array, all in place. */
module ShardConfig {
  import opened ShardBalance

  const NSHARDS := 12

  datatype ChangeResult = Done | Refused | Fatal

  /** Every group of `these` shares no server with any other group. */
  ghost predicate ServersApart(groups: map<int, seq<string>>, these: set<int>) {
    forall g, h | g in these && g in groups && h in groups && g != h :: Apart(groups[h], groups[g])
  }

  /** Something joins, no group id is in use, and no joining server is in another group. */
  ghost predicate CanJoin(groups: map<int, seq<string>>, servers: map<int, seq<string>>) {
    servers != map[] && servers.Keys !! groups.Keys && ServersApart(groups + servers, servers.Keys)
  }

  ghost predicate Apart(a: seq<string>, b: seq<string>) {
    forall s | s in a :: s !in b
  }

  /** Whether a server of `servers` is already in one of the groups. */
  method Overlap(groups: map<int, seq<string>>, servers: seq<string>) returns (found: bool)
    ensures found <==> exists g :: g in groups && !Apart(groups[g], servers)
  {
    var rest := groups.Keys;
    while rest != {}
      invariant rest <= groups.Keys
      invariant forall g | g in groups && g !in rest :: Apart(groups[g], servers)
      decreases |rest|
    {
      Inhabited(rest);
      var xgid :| xgid in rest;
      var shared := Shares(groups[xgid], servers);
      if shared {
        return true;
      }
      rest := rest - {xgid};
    }
    return false;
  }

  method Shares(a: seq<string>, b: seq<string>) returns (found: bool)
    ensures found <==> !Apart(a, b)
  {
    for i := 0 to |a|
      invariant forall k | 0 <= k < i :: a[k] !in b
    {
      assert a[i] in a;
      for j := 0 to |b|
        invariant forall k | 0 <= k < j :: b[k] != a[i]
      {
        if a[i] == b[j] {
          return true;
        }
      }
    }
    return false;
  }

  /** How many shards each group has. */
  method CountShards(shards: array<int>) returns (counts: map<int, nat>)
    ensures forall g :: (if g in counts then counts[g] else 0) == Count(shards[..], g)
  {
    counts := map[];
    for s := 0 to shards.Length
      invariant forall g :: (if g in counts then counts[g] else 0) == Count(shards[..s], g)
    {
      var g := shards[s];
      assert shards[..s + 1] == shards[..s] + [g];
      counts := counts[g := (if g in counts then counts[g] else 0) + 1];
    }
    assert shards[..shards.Length] == shards[..];
  }

  ghost predicate Ascending(gs: seq<int>) {
    forall i, j | 0 <= i < j < |gs| :: gs[i] < gs[j]
  }

  /** The group ids in ascending order, whatever order the map yields them in. */
  method SortedGids(gids: set<int>) returns (sorted: seq<int>)
    ensures Ascending(sorted) && (forall g :: g in sorted <==> g in gids)
  {
    sorted := [];
    var rest := gids;
    while rest != {}
      invariant rest <= gids && Ascending(sorted)
      invariant forall g :: g in sorted <==> g in gids - rest
      decreases |rest|
    {
      Inhabited(rest);
      var g :| g in rest;
      sorted := Insert(sorted, g);
      rest := rest - {g};
    }
  }

  method Insert(sorted: seq<int>, g: int) returns (r: seq<int>)
    requires Ascending(sorted) && g !in sorted
    ensures Ascending(r) && (forall x :: x in r <==> x in sorted || x == g)
  {
    var i := 0;
    while i < |sorted| && sorted[i] < g
      invariant i <= |sorted| && forall k | 0 <= k < i :: sorted[k] < g
    {
      i := i + 1;
    }
    r := sorted[..i] + [g] + sorted[i..];
    assert sorted == sorted[..i] + sorted[i..];
  }

  /** The most and the least loaded group and their loads. The initial values bound the loads
      the source can see: no group may have 257 shards. */
  method Analyze(shards: array<int>, gids: set<int>) returns (mg: int, mn: int, lg: int, ln: int)
    requires shards.Length < 257
    ensures gids == {} ==> mg == -1 && mn == -1 && lg == -1 && ln == 257
    ensures gids != {} ==> IsMost(shards[..], gids, mg) && mn == Count(shards[..], mg)
    ensures gids != {} ==> IsLeast(shards[..], gids, lg) && ln == Count(shards[..], lg)
  {
    var counts := CountShards(shards);
    mn, mg, ln, lg := -1, -1, 257, -1;
    var groups := SortedGids(gids);
    ghost var seen: set<int> := {};
    for i := 0 to |groups|
      invariant seen == set k | 0 <= k < i :: groups[k]
      invariant i == 0 ==> mg == -1 && mn == -1 && lg == -1 && ln == 257
      invariant i > 0 ==> IsMost(shards[..], seen, mg) && mn == Count(shards[..], mg)
      invariant i > 0 ==> IsLeast(shards[..], seen, lg) && ln == Count(shards[..], lg)
    {
      var g := groups[i];
      var n := if g in counts then counts[g] else 0;
      CountBound(shards[..], g);
      assert forall h | h in seen :: h < g;
      seen := seen + {g};
      if n < ln {
        ln, lg := n, g;
      }
      if n > mn {
        mn, mg := n, g;
      }
    }
    assert seen == gids by {
      forall g | g in gids ensures g in seen {
        assert g in groups;
      }
    }
  }

  lemma CountBound(shards: seq<int>, g: int)
    ensures Count(shards, g) <= |shards|
  {
    assert multiset(shards)[g] <= |multiset(shards)|;
  }

  lemma LeastUnique(shards: seq<int>, gids: set<int>, g: int)
    requires gids != {} && IsLeast(shards, gids, g)
    ensures g == Least(shards, gids)
  {
  }

  lemma MostUnique(shards: seq<int>, gids: set<int>, g: int)
    requires gids != {} && IsMost(shards, gids, g)
    ensures g == Most(shards, gids)
  {
  }

  lemma {:induction false} FirstIs(shards: seq<int>, g: int, i: nat)
    requires i < |shards| && shards[i] == g && forall k | 0 <= k < i :: shards[k] != g
    ensures First(shards, g) == i
  {
    if i > 0 {
      FirstIs(shards[1..], g, i - 1);
    }
  }

  class Config {
    var num: int
    const shards: array<int>
    var groups: map<int, seq<string>>

    ghost predicate Valid()
      reads this
    {
      shards.Length == NSHARDS
    }

    constructor ()
      ensures Valid() && num == 0 && groups == map[] && fresh(shards)
      ensures forall s | 0 <= s < NSHARDS :: shards[s] == 0
    {
      num := 0;
      shards := new int[NSHARDS](_ => 0);
      groups := map[];
    }

    /** Balance in place: the array becomes a function of its old contents and the group ids. */
    method Rebalance()
      requires Valid()
      modifies shards
      ensures shards[..] == Rebalanced(old(shards[..]), groups.Keys)
    {
      if |groups| < 1 {
        for s := 0 to shards.Length
          invariant forall k | 0 <= k < s :: shards[k] == 0
        {
          shards[s] := 0;
        }
        assert groups.Keys == {};
        return;
      }
      assert groups.Keys != {};
      AssignUnassigned();
      EvenOut();
    }

    method AssignUnassigned()
      requires Valid() && groups.Keys != {}
      modifies shards
      ensures shards[..] == Assigned(old(shards[..]), groups.Keys, 0)
    {
      for s := 0 to shards.Length
        invariant Assigned(shards[..], groups.Keys, s) == Assigned(old(shards[..]), groups.Keys, 0)
      {
        if shards[s] !in groups {
          var _, _, lg, _ := Analyze(shards, groups.Keys);
          LeastUnique(shards[..], groups.Keys, lg);
          ghost var before := shards[..];
          shards[s] := lg;
          assert shards[..] == before[s := lg];
        }
      }
    }

    method EvenOut()
      requires Valid() && groups.Keys != {}
      modifies shards
      ensures shards[..] == Evened(old(shards[..]), groups.Keys)
    {
      while true
        invariant Evened(shards[..], groups.Keys) == Evened(old(shards[..]), groups.Keys)
        decreases SumSquares(shards[..], groups.Keys)
      {
        var mg, mn, lg, ln := Analyze(shards, groups.Keys);
        LeastUnique(shards[..], groups.Keys, lg);
        MostUnique(shards[..], groups.Keys, mg);
        if mn < ln + 2 {
          break;
        }
        MoveDecreases(shards[..], groups.Keys);
        MoveOne(mg, lg);
      }
    }

    /** Hand the first shard of one group to another. */
    method MoveOne(mg: int, lg: int)
      requires Valid() && mg in shards[..]
      modifies shards
      ensures shards[..] == old(shards[..])[First(old(shards[..]), mg) := lg]
    {
      var s := 0;
      while s < shards.Length
        invariant s <= shards.Length && shards[..] == old(shards[..])
        invariant forall k | 0 <= k < s :: shards[k] != mg
      {
        if shards[s] == mg {
          FirstIs(shards[..], mg, s);
          shards[s] := lg;
          assert shards[..] == old(shards[..])[s := lg];
          return;
        }
        s := s + 1;
      }
      assert false;
    }

    /** Add one group unless its id is in use or one of its servers is taken. */
    method TryAdd(gid: int, servers: seq<string>) returns (r: ChangeResult)
      modifies this`groups
      ensures r == Refused <==> gid in old(groups)
      ensures r == Fatal <==> gid !in old(groups) && exists g :: g in old(groups) && !Apart(old(groups)[g], servers)
      ensures groups == if r == Done then old(groups)[gid := servers] else old(groups)
    {
      if gid in groups {
        return Refused;
      }
      var overlap := Overlap(groups, servers);
      if overlap {
        return Fatal;
      }
      groups := groups[gid := servers];
      r := Done;
    }

    /** Add groups. It succeeds exactly when something joins, no group id is in use, and no
        joining server is in another group; otherwise part of the groups may have been added. */
    method Join(servers: map<int, seq<string>>) returns (r: ChangeResult)
      modifies this`groups, this`num
      ensures r == Done <==> CanJoin(old(groups), servers)
      ensures r == Done ==> groups == old(groups) + servers && num == old(num) + 1
      ensures r != Done ==> num == old(num) && old(groups).Keys <= groups.Keys <= old(groups).Keys + servers.Keys
    {
      hide ServersApart, Apart, Added, CanJoin;
      ghost var before := groups;
      var rest := servers.Keys;
      r := if servers == map[] then Fatal else Done;
      AddedNone(groups, servers);
      while rest != {} && r == Done
        invariant rest <= servers.Keys && num == old(num)
        invariant groups == Added(before, servers, rest)
        invariant r == Done ==> servers != map[] && Adding(before, servers, rest)
        invariant r != Done ==> !CanJoin(before, servers)
        decreases |rest|, r == Done
      {
        Inhabited(rest);
        var gid :| gid in rest;
        AddedOne(before, servers, rest, gid);
        r := TryAdd(gid, servers[gid]);
        if r == Done {
          rest := rest - {gid};
        }
      }
      AddedAll(before, servers, rest);
      if r == Done {
        num := num + 1;
      }
    }

    /** Remove groups. It succeeds exactly when some are named, each is present, and none twice. */
    method Leave(gids: seq<int>) returns (r: ChangeResult)
      modifies this`groups, this`num
      ensures r == Done <==> gids != [] && (forall k | 0 <= k < |gids| :: gids[k] in old(groups) && gids[k] !in gids[..k])
      ensures r == Done ==> groups == old(groups) - (set g | g in gids) && num == old(num) + 1
      ensures r != Done ==> num == old(num) && groups.Keys <= old(groups).Keys
    {
      for i := 0 to |gids|
        invariant num == old(num)
        invariant groups == old(groups) - (set g | g in gids[..i])
        invariant forall k | 0 <= k < i :: gids[k] in old(groups) && gids[k] !in gids[..k]
      {
        if gids[i] !in groups {
          return Refused;
        }
        assert gids[..i + 1] == gids[..i] + [gids[i]];
        groups := groups - {gids[i]};
      }
      assert gids[..|gids|] == gids;
      if gids == [] {
        return Fatal;
      }
      num := num + 1;
      r := Done;
    }

    /** A successful join of a balanced configuration only hands shards to the joining groups. */
    method JoinBalance(servers: map<int, seq<string>>) returns (r: ChangeResult)
      requires Valid()
      modifies this`groups, this`num, shards
      ensures r == Done <==> CanJoin(old(groups), servers)
      ensures r == Done ==> groups == old(groups) + servers && num == old(num) + 1
      ensures r == Done ==> AllIn(shards[..], groups.Keys) && Even(shards[..], groups.Keys)
      ensures r == Done ==> shards[..] == Rebalanced(old(shards[..]), old(groups).Keys + servers.Keys)
      ensures r == Done && AllIn(old(shards[..]), old(groups).Keys) && Even(old(shards[..]), old(groups).Keys) ==>
        forall s | 0 <= s < shards.Length :: shards[s] == old(shards[s]) || shards[s] in servers
      ensures r != Done ==> shards[..] == old(shards[..])
    {
      r := Join(servers);
      if r != Done {
        return;
      }
      assert groups.Keys == old(groups).Keys + servers.Keys;
      Rebalance();
      RebalancedIsBalanced(old(shards[..]), groups.Keys);
      if AllIn(old(shards[..]), old(groups).Keys) && Even(old(shards[..]), old(groups).Keys) {
        JoinMovesOnlyToJoiners(old(shards[..]), old(groups).Keys, servers.Keys);
        assert forall s | 0 <= s < shards.Length :: shards[s] == shards[..][s] && old(shards[s]) == old(shards[..])[s];
      }
    }

    /** A successful leave of a balanced configuration, with some group staying, only moves
        the shards of the groups that left. */
    method LeaveBalance(gids: seq<int>) returns (r: ChangeResult)
      requires Valid()
      modifies this`groups, this`num, shards
      ensures r == Done <==> gids != [] && (forall k | 0 <= k < |gids| :: gids[k] in old(groups) && gids[k] !in gids[..k])
      ensures r == Done ==> groups == old(groups) - (set g | g in gids) && num == old(num) + 1
      ensures r == Done ==> shards[..] == Rebalanced(old(shards[..]), groups.Keys)
      ensures r == Done && groups != map[] ==> AllIn(shards[..], groups.Keys) && Even(shards[..], groups.Keys)
      ensures r == Done && groups != map[]
              && AllIn(old(shards[..]), old(groups).Keys) && Even(old(shards[..]), old(groups).Keys) ==>
        forall s | 0 <= s < shards.Length && old(shards[s]) !in gids :: shards[s] == old(shards[s])
      ensures r != Done ==> shards[..] == old(shards[..])
    {
      r := Leave(gids);
      if r != Done {
        return;
      }
      ghost var leave := set g | g in gids;
      assert groups.Keys == old(groups).Keys - leave;
      Rebalance();
      RebalancedIsBalanced(old(shards[..]), groups.Keys);
      if groups != map[] && AllIn(old(shards[..]), old(groups).Keys) && Even(old(shards[..]), old(groups).Keys) {
        assert groups.Keys != {};
        LeaveMovesOnlyDeparted(old(shards[..]), old(groups).Keys, leave);
        assert forall s | 0 <= s < shards.Length :: shards[s] == shards[..][s] && old(shards[s]) == old(shards[..])[s];
      }
    }
  }

  /** The groups once all of `servers` but `rest` were added. */
  ghost function Added(groups: map<int, seq<string>>, servers: map<int, seq<string>>, rest: set<int>): map<int, seq<string>> {
    groups + (servers - rest)
  }

  /** What holds while groups are being added. */
  ghost predicate Adding(groups: map<int, seq<string>>, servers: map<int, seq<string>>, rest: set<int>) {
    (servers.Keys - rest) !! groups.Keys && ServersApart(Added(groups, servers, rest), servers.Keys - rest)
  }

  lemma AddedNone(groups: map<int, seq<string>>, servers: map<int, seq<string>>)
    ensures Added(groups, servers, servers.Keys) == groups && Adding(groups, servers, servers.Keys)
    ensures servers == map[] ==> !CanJoin(groups, servers)
  {
    assert servers - servers.Keys == map[];
  }

  lemma AddedAll(groups: map<int, seq<string>>, servers: map<int, seq<string>>, rest: set<int>)
    requires rest <= servers.Keys
    ensures groups.Keys <= Added(groups, servers, rest).Keys <= groups.Keys + servers.Keys
    ensures rest == {} ==> Added(groups, servers, rest) == groups + servers
    ensures rest == {} && servers != map[] && Adding(groups, servers, rest) ==> CanJoin(groups, servers)
  {
    assert servers - {} == servers && servers.Keys - {} == servers.Keys;
  }

  /** The three ways to treat the next group. */
  lemma AddedOne(groups: map<int, seq<string>>, servers: map<int, seq<string>>, rest: set<int>, gid: int)
    requires gid in rest && rest <= servers.Keys && Adding(groups, servers, rest)
    ensures var now := Added(groups, servers, rest);
      && now[gid := servers[gid]] == Added(groups, servers, rest - {gid})
      && (gid in now ==> !CanJoin(groups, servers))
      && (gid !in now && (exists g :: g in now && !Apart(now[g], servers[gid])) ==> !CanJoin(groups, servers))
      && (gid !in now && !(exists g :: g in now && !Apart(now[g], servers[gid])) ==> Adding(groups, servers, rest - {gid}))
  {
    var now := Added(groups, servers, rest);
    assert servers.Keys - (rest - {gid}) == servers.Keys - rest + {gid};
    if gid in now {
      assert gid in groups.Keys;
    } else if exists g :: g in now && !Apart(now[g], servers[gid]) {
      NeverApart(groups, servers, rest, gid);
    } else {
      AddApart(now, servers.Keys - rest, gid, servers[gid]);
    }
  }

  lemma AddApart(groups: map<int, seq<string>>, these: set<int>, gid: int, servers: seq<string>)
    requires ServersApart(groups, these) && gid !in groups
    requires !exists g :: g in groups && !Apart(groups[g], servers)
    ensures ServersApart(groups[gid := servers], these + {gid})
  {
    var more := groups[gid := servers];
    forall g, h | g in these + {gid} && g in more && h in more && g != h ensures Apart(more[h], more[g]) {
      assert g in groups ==> Apart(groups[g], servers);
      assert h in groups ==> Apart(groups[h], servers);
    }
  }

  /** A joining group that shares a server with what is there by now spoils the whole join. */
  lemma NeverApart(groups: map<int, seq<string>>, servers: map<int, seq<string>>, rest: set<int>, gid: int)
    requires gid in rest && rest <= servers.Keys && gid !in Added(groups, servers, rest)
    requires exists g :: g in Added(groups, servers, rest) && !Apart(Added(groups, servers, rest)[g], servers[gid])
    ensures !CanJoin(groups, servers)
  {
    var now, all := Added(groups, servers, rest), groups + servers;
    var g :| g in now && !Apart(now[g], servers[gid]);
    if servers.Keys !! groups.Keys {
      assert all[g] == now[g] && all[gid] == servers[gid];
    }
  }
}
