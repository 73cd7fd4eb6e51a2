/** A leader finds the point where a follower's log meets its own after finitely many
    exchanges, whatever the two have compacted. */
module FastBackup {
  import opened RaftLog
  import opened RaftNode
  import opened Cluster
  import C = Consensus
  import opened Refinement
  import opened Handlers
  import opened ClusterProof
  import opened RaftSafety

  ghost predicate Ready(l: Node, f: Node, peer: nat) {
    && |l.log| > 0 && |f.log| > 0 && l.lastIncludedIndex <= l.commitIndex
    && peer < |l.nextIndex| == |l.matchIndex|
    && l.nextIndex[peer] <= LastLogIndex(l) + 1
  }

  /** One exchange: the request that the leader sends, the follower's answer, and what the
      leader makes of it. */
  function Round(l: Node, f: Node, me: nat, peer: nat): (Node, Node, bool)
    requires Ready(l, f, peer)
  {
    match Replicate(l, me, peer)
    case SendAppend(args) =>
      var (g, r) := AppendEntries(f, args);
      (OnAppendReply(l, me, peer, args.term, args.prevLogIndex, |args.entries|, r), g, r.success)
    case SendSnapshot(args) =>
      var (g, rt) := InstallSnapshot(f, args);
      (OnSnapshotReply(l, peer, args.term, args.lastIncludedIndex, rt), g, false)
  }

  /** At most `k` exchanges fail before the follower accepts entries. */
  ghost predicate Settles(l: Node, f: Node, me: nat, peer: nat, k: nat)
    decreases k
  {
    && Ready(l, f, peer)
    && var (l', f', ok) := Round(l, f, me, peer);
       ok || (k > 0 && Settles(l', f', me, peer, k - 1))
  }

  lemma {:induction false} SettlesLater(l: Node, f: Node, me: nat, peer: nat, j: nat, k: nat)
    requires Settles(l, f, me, peer, j) && j <= k
    ensures Settles(l, f, me, peer, k)
    decreases j
  {
    var (l', f', ok) := Round(l, f, me, peer);
    if !ok {
      SettlesLater(l', f', me, peer, j - 1, k - 1);
    }
  }

  /** A leader and a follower of its term, in a state of the protocol. */
  ghost predicate Pair(l: Node, f: Node, a: C.State, p: nat, q: nat) {
    && C.Inv(a) && NodeRel(l, a, p) && NodeRel(f, a, q) && p != q
    && l.role == Leader && f.currentTerm == l.currentTerm
  }

  lemma PairFacts(l: Node, f: Node, a: C.State, p: nat, q: nat)
    requires Pair(l, f, a, p, q)
    ensures Ready(l, f, q) && 1 <= l.nextIndex[q] && p < |a.peers| && q < |a.peers|
    ensures LastLogIndex(l) == |a.peers[p].log| && LastLogIndex(f) == |a.peers[q].log|
    ensures f.lastIncludedIndex <= |a.peers[q].log| && a.peers[q].log[..f.lastIncludedIndex] <= a.peers[p].log
    ensures C.Sound(a.lead, a.peers[p].log) && C.Sound(a.lead, a.peers[q].log)
  {
    Basics(l, a, p);
    Basics(f, a, q);
    CommitWithinLead(a, q, l.currentTerm);
    LogsSound(a, p, l.currentTerm);
    LogsSound(a, q, l.currentTerm);
    var log := a.peers[q].log;
    assert log[..f.lastIncludedIndex] == log[..f.commitIndex][..f.lastIncludedIndex];
  }

  /** An exchange leaves leader and follower in a state of the protocol. */
  lemma RoundKeepsPair(l: Node, f: Node, a: C.State, p: nat, q: nat) returns (b: C.State)
    requires Pair(l, f, a, p, q)
    ensures Ready(l, f, q)
    ensures var (l', f', _) := Round(l, f, p, q); Pair(l', f', b, p, q)
    ensures C.Grows(a, b)
  {
    hide C.Inv, C.Grows, C.Has, P.Local, NodeRel, Splice, DropPrefix, CommitScan, LastOfTerm, RunStart;
    PairFacts(l, f, a, p, q);
    ReplicateOk(l, a, p, q);
    match Replicate(l, p, q)
    case SendAppend(args) =>
      AppendReqRefines(f, a, q, args);
      var (f', r) := AppendEntries(f, args);
      var c :| Moved(a, c, q) && NodeRel(f', c, q)
               && AppendReplyOk(c, q, args.term, args.prevLogIndex + |args.entries|, r);
      OtherKeeps(l, a, c, q, p);
      AppendRepRefines(l, c, p, q, args.term, args.prevLogIndex, |args.entries|, r);
      b :| Moved(c, b, p) && NodeRel(Round(l, f, p, q).0, b, p);
      OtherKeeps(f', c, b, p, q);
      C.GrowsTransitive(a, c, b);
    case SendSnapshot(args) =>
      InstallReqRefines(f, a, q, args);
      var (f', rt) := InstallSnapshot(f, args);
      var c :| Moved(a, c, q) && NodeRel(f', c, q)
               && (rt <= args.term ==> Acked(c, q, args.term, args.lastIncludedIndex));
      OtherKeeps(l, a, c, q, p);
      InstallRepRefines(l, c, p, q, args.term, args.lastIncludedIndex, rt);
      b :| Moved(c, b, p) && NodeRel(Round(l, f, p, q).0, b, p);
      OtherKeeps(f', c, b, p, q);
      C.GrowsTransitive(a, c, b);
  }

  /** The request a leader sends when the entries are there to send. */
  lemma Request(l: Node, f: Node, a: C.State, p: nat, q: nat)
    requires Pair(l, f, a, p, q) && l.nextIndex[q] > l.lastIncludedIndex
    ensures Ready(l, f, q) && p < |a.peers| && 0 < l.nextIndex[q] <= |a.peers[p].log| + 1
    ensures Replicate(l, p, q).SendAppend?
    ensures var args := Replicate(l, p, q).append;
      && args.term == l.currentTerm && args.prevLogIndex == l.nextIndex[q] - 1
      && args.prevLogTerm == TermAt(a.peers[p].log, args.prevLogIndex)
  {
    PairFacts(l, f, a, p, q);
    Reads(l, a, p, l.nextIndex[q] - 1);
  }

  /** Where the follower's log agrees with the leader's up to the request, it accepts. */
  lemma Hit(l: Node, f: Node, a: C.State, p: nat, q: nat)
    requires Pair(l, f, a, p, q) && l.nextIndex[q] > l.lastIncludedIndex
    requires f.lastIncludedIndex < l.nextIndex[q] <= |a.peers[q].log| + 1
    requires l.nextIndex[q] <= |a.peers[p].log| + 1
    requires TermAt(a.peers[q].log, l.nextIndex[q] - 1) == TermAt(a.peers[p].log, l.nextIndex[q] - 1)
    ensures Settles(l, f, p, q, 0)
  {
    hide C.Inv, NodeRel, Accept, OnAppendReply;
    PairFacts(l, f, a, p, q);
    Request(l, f, a, p, q);
    Basics(f, a, q);
    Reads(f, a, q, l.nextIndex[q] - 1);
    assert AppendEntries(f, Replicate(l, p, q).append).1.success;
  }

  /** Right above the follower's snapshot the two logs agree: the snapshot is committed. */
  lemma HitAtBase(l: Node, f: Node, a: C.State, p: nat, q: nat)
    requires Pair(l, f, a, p, q) && l.nextIndex[q] > l.lastIncludedIndex
    requires l.nextIndex[q] == f.lastIncludedIndex + 1
    ensures Settles(l, f, p, q, 0)
  {
    PairFacts(l, f, a, p, q);
    var base := f.lastIncludedIndex;
    assert base > 0 ==> a.peers[q].log[..base][base - 1] == a.peers[p].log[base - 1];
    Hit(l, f, a, p, q);
  }

  /** A log that reaches as far into a term as another agrees with it up to there. */
  lemma SameTermAgree(a: C.State, top: seq<Entry>, log: seq<Entry>, prev: nat, x: nat)
    requires C.Sound(a.lead, top) && C.Sound(a.lead, log)
    requires 0 < prev <= |log| && prev <= |top| && 0 < x <= |top| && TermAt(top, x) == TermAt(log, prev)
    ensures prev <= x ==> TermAt(top, prev) == TermAt(log, prev)
  {
    assert C.RootedAt(a.lead, log, prev - 1) && C.RootedAt(a.lead, top, x - 1);
    var reign := a.lead[TermAt(log, prev)].log;
    assert log[..prev][prev - 1] == reign[prev - 1];
    assert prev <= x ==> top[..x][prev - 1] == reign[prev - 1];
  }

  /** A term that starts in a shared prefix and goes on above it covers the end of the prefix. */
  lemma SameTermSpans(a: C.State, top: seq<Entry>, log: seq<Entry>, prev: nat, base: nat, x: nat)
    requires C.Inv(a) && C.Sound(a.lead, log)
    requires base <= prev <= |log| && log[..base] <= top
    requires 0 < x <= |top| && TermAt(top, x) == TermAt(log, prev)
    ensures x < base ==> TermAt(top, base) == TermAt(log, prev)
  {
    if x < base {
      assert log[..base][x - 1] == top[x - 1] && log[..base][base - 1] == top[base - 1];
      C.TermsOrdered(a, log, x - 1, base - 1);
      C.TermsOrdered(a, log, base - 1, prev - 1);
    }
  }

  /** The term of a mismatched follower entry ends strictly earlier in the leader's log,
      and not before the follower's snapshot. */
  lemma ConflictTermEarlier(a: C.State, top: seq<Entry>, log: seq<Entry>, prev: nat, base: nat, x: nat)
    requires C.Inv(a) && C.Sound(a.lead, top) && C.Sound(a.lead, log)
    requires base <= prev <= |log| && prev <= |top| && log[..base] <= top
    requires TermAt(log, prev) != TermAt(top, prev)
    requires 0 < x <= |top| && TermAt(top, x) == TermAt(log, prev)
    requires forall k: nat | x < k <= |top| :: TermAt(top, k) != TermAt(log, prev)
    ensures base <= x < prev
  {
    SameTermAgree(a, top, log, prev, x);
    SameTermSpans(a, top, log, prev, base, x);
  }

  /** Each rejection moves the leader strictly back, but never below the follower's snapshot. */
  lemma RejectLowers(l: Node, f: Node, a: C.State, p: nat, q: nat)
    requires Pair(l, f, a, p, q) && l.nextIndex[q] > l.lastIncludedIndex
    requires f.lastIncludedIndex < l.nextIndex[q]
    ensures Ready(l, f, q) && q < |l.nextIndex|
    ensures var (l', f', ok) := Round(l, f, p, q);
      ok || (&& q < |l'.nextIndex| && f.lastIncludedIndex <= l'.nextIndex[q] < l.nextIndex[q]
             && f'.lastIncludedIndex == f.lastIncludedIndex && l'.lastIncludedIndex == l.lastIncludedIndex)
  {
    hide C.Inv, NodeRel, Accept;
    Request(l, f, a, p, q);
    PairFacts(l, f, a, p, q);
    var args := Replicate(l, p, q).append;
    var prev := args.prevLogIndex;
    var r := AppendEntries(f, args).1;
    var top, log := a.peers[p].log, a.peers[q].log;
    if prev <= |log| && !r.success {
      Reads(f, a, q, prev);
      var t := TermAt(log, prev);
      var j := LastOfTerm(l.log, |l.log| - 1, t);
      if j > 0 {
        forall k: nat | j + l.lastIncludedIndex < k <= |top| ensures TermAt(top, k) != t {
          Reads(l, a, p, k);
        }
        Reads(l, a, p, j + l.lastIncludedIndex);
        ConflictTermEarlier(a, top, log, prev, f.lastIncludedIndex, j + l.lastIncludedIndex);
      }
    }
  }

  /** Two logs agree through `x` and differ right above it. */
  ghost predicate MeetAt(x: nat, a: seq<Entry>, b: seq<Entry>) {
    x < |a| && x < |b| && a[..x] == b[..x] && a[x] != b[x]
  }

  /** The leader's last entry of the conflict term ends the longest common prefix. */
  lemma ConflictTermMeets(a: C.State, top: seq<Entry>, log: seq<Entry>, prev: nat, base: nat, x: nat)
    requires C.Inv(a) && C.Sound(a.lead, top) && C.Sound(a.lead, log)
    requires base <= prev <= |log| && prev <= |top| && log[..base] <= top
    requires TermAt(log, prev) != TermAt(top, prev)
    requires 0 < x <= |top| && TermAt(top, x) == TermAt(log, prev)
    requires forall k: nat | x < k <= |top| :: TermAt(top, k) != TermAt(log, prev)
    ensures MeetAt(x, top, log)
  {
    var t := TermAt(log, prev);
    ConflictTermEarlier(a, top, log, prev, base, x);
    assert C.RootedAt(a.lead, log, prev - 1) && C.RootedAt(a.lead, top, x - 1);
    var reign := a.lead[t].log;
    assert log[..x] == log[..prev][..x] == reign[..x] == top[..x];
    assert log[..x][x - 1] == top[..x][x - 1];
    C.TermsOrdered(a, log, x - 1, x);
    C.TermsOrdered(a, log, x, prev - 1);
    assert TermAt(top, x + 1) != t;
  }

  /** After a rejection with a term of which the leader still keeps an entry, it retries exactly
      where the two full logs part: they agree up to there and differ right above. */
  lemma BackupExactly(l: Node, f: Node, a: C.State, p: nat, q: nat)
    requires Pair(l, f, a, p, q) && Ready(l, f, q) && Replicate(l, p, q).SendAppend?
    requires var r := AppendEntries(f, Replicate(l, p, q).append).1;
      !r.success && exists j :: 0 < j < |l.log| && l.log[j].term == r.conflictTerm
    ensures var next := Round(l, f, p, q).0.nextIndex;
      && q < |next| && p < |a.peers| && q < |a.peers|
      && 0 < next[q] && MeetAt(next[q] - 1, a.peers[p].log, a.peers[q].log)
  {
    hide C.Inv, NodeRel, Accept, MeetAt;
    PairFacts(l, f, a, p, q);
    Request(l, f, a, p, q);
    var args := Replicate(l, p, q).append;
    var prev, r := args.prevLogIndex, AppendEntries(f, args).1;
    var top, log := a.peers[p].log, a.peers[q].log;
    Reads(f, a, q, prev);
    var j := LastOfTerm(l.log, |l.log| - 1, r.conflictTerm);
    forall k: nat | j + l.lastIncludedIndex < k <= |top| ensures TermAt(top, k) != r.conflictTerm {
      Reads(l, a, p, k);
    }
    Reads(l, a, p, j + l.lastIncludedIndex);
    ConflictTermMeets(a, top, log, prev, f.lastIncludedIndex, j + l.lastIncludedIndex);
  }

  /** A follower whose log ends before the request is next sent what comes right after it; one
      whose conflict term the leader does not keep, what comes from the start of that term on,
      as far as the follower keeps it. */
  lemma BackupToHint(l: Node, f: Node, a: C.State, p: nat, q: nat)
    requires Pair(l, f, a, p, q) && Ready(l, f, q) && l.nextIndex[q] > l.lastIncludedIndex
    requires l.nextIndex[q] > f.lastIncludedIndex
    requires var r := AppendEntries(f, Replicate(l, p, q).append).1;
      !r.success && forall j | 0 < j < |l.log| :: l.log[j].term != r.conflictTerm
    ensures q < |Round(l, f, p, q).0.nextIndex| && p < |a.peers| && q < |a.peers| && 0 < l.nextIndex[q]
    ensures var next, prev, log := Round(l, f, p, q).0.nextIndex[q], l.nextIndex[q] - 1, a.peers[q].log;
      if prev > |log| then next == |log| + 1
      else
        && f.lastIncludedIndex <= next <= prev
        && (forall k: nat | next <= k <= prev :: TermAt(log, k) == TermAt(log, prev))
        && (next > f.lastIncludedIndex ==> TermAt(log, next - 1) != TermAt(log, prev))
  {
    hide C.Inv, NodeRel, Accept;
    PairFacts(l, f, a, p, q);
    Request(l, f, a, p, q);
    var prev, log, base := l.nextIndex[q] - 1, a.peers[q].log, f.lastIncludedIndex;
    if prev <= |log| {
      Reads(f, a, q, prev);
      var next := RunStart(f.log, prev - base) + base;
      forall k: nat | next <= k <= prev ensures TermAt(log, k) == TermAt(log, prev) {
        Reads(f, a, q, k);
      }
      if next > base {
        Reads(f, a, q, next - 1);
      }
    }
  }

  /** Once the follower accepts, it holds the leader's whole log and knows of everything the
      leader had committed, and the leader knows that it holds it. */
  lemma ExchangeDelivers(l: Node, f: Node, a: C.State, p: nat, q: nat) returns (b: C.State)
    requires Pair(l, f, a, p, q) && Ready(l, f, q) && Round(l, f, p, q).2
    ensures var (l', f', _) := Round(l, f, p, q);
      && Pair(l', f', b, p, q) && p < |a.peers| && q < |b.peers| && q < |l'.matchIndex| && q < |l'.nextIndex|
      && l'.matchIndex[q] == |a.peers[p].log| && l'.nextIndex[q] == |a.peers[p].log| + 1
      && a.peers[p].log == b.peers[p].log <= b.peers[q].log
      && f'.commitIndex == Higher(f.commitIndex, l.commitIndex)
  {
    hide C.Inv, C.Grows, NodeRel, Round;
    b := RoundKeepsPair(l, f, a, p, q);
    var (l', f', _) := Round(l, f, p, q);
    RoundRecords(l, f, a, p, q);
    PairFacts(l', f', b, p, q);
    AckedAgrees(l', f', b, p, q);
    SameReign(l, l', a, b, p);
  }

  lemma RoundRecords(l: Node, f: Node, a: C.State, p: nat, q: nat)
    requires Pair(l, f, a, p, q) && Ready(l, f, q) && Round(l, f, p, q).2
    ensures var (l', f', _) := Round(l, f, p, q);
      && p < |a.peers| && q < |l'.matchIndex| && q < |l'.nextIndex|
      && l'.matchIndex[q] == |a.peers[p].log| && l'.nextIndex[q] == |a.peers[p].log| + 1
      && LastLogIndex(l) == |a.peers[p].log|
      && l'.log == l.log && l'.lastIncludedIndex == l.lastIncludedIndex && l'.currentTerm == l.currentTerm
      && f'.commitIndex == Higher(f.commitIndex, l.commitIndex)
  {
    hide C.Inv, NodeRel, Splice, CommitScan;
    PairFacts(l, f, a, p, q);
    Basics(l, a, p);
    Request(l, f, a, p, q);
  }

  /** A leader's log of one term and one length is one log. */
  lemma SameReign(l: Node, l': Node, a: C.State, b: C.State, p: nat)
    requires C.Grows(a, b) && NodeRel(l, a, p) && NodeRel(l', b, p) && l.role == l'.role == Leader
    requires l'.log == l.log && l'.lastIncludedIndex == l.lastIncludedIndex && l'.currentTerm == l.currentTerm
    ensures p < |a.peers| && p < |b.peers| && a.peers[p].log == b.peers[p].log
  {
    hide C.Grows;
    Basics(l, a, p);
    Basics(l', b, p);
    assert C.ReignGrows(a.lead, b.lead, l.currentTerm) by { ReignOf(a, b, l.currentTerm); }
  }

  lemma ReignOf(a: C.State, b: C.State, t: nat)
    requires C.Grows(a, b)
    ensures C.ReignGrows(a.lead, b.lead, t)
  {
  }

  /** Below the follower's snapshot there is one jump up, to right above it. */
  lemma JumpUp(l: Node, f: Node, a: C.State, p: nat, q: nat)
    requires Pair(l, f, a, p, q) && l.lastIncludedIndex < l.nextIndex[q] <= f.lastIncludedIndex
    ensures Settles(l, f, p, q, 1)
  {
    Request(l, f, a, p, q);
    PairFacts(l, f, a, p, q);
    var (l', f', ok) := Round(l, f, p, q);
    var b := RoundKeepsPair(l, f, a, p, q);
    HitAtBase(l', f', b, p, q);
  }

  /** After a snapshot was installed the leader resumes at what the follower acknowledged. */
  lemma AfterInstall(l: Node, f: Node, a: C.State, p: nat, q: nat)
    requires Pair(l, f, a, p, q) && l.nextIndex[q] <= l.lastIncludedIndex
    ensures Settles(l, f, p, q, 2)
  {
    hide C.Inv, NodeRel, DropPrefix;
    PairFacts(l, f, a, p, q);
    var (l', f', ok) := Round(l, f, p, q);
    var b := RoundKeepsPair(l, f, a, p, q);
    PairFacts(l', f', b, p, q);
    if l'.nextIndex[q] <= f'.lastIncludedIndex {
      JumpUp(l', f', b, p, q);
    } else {
      LeaderFacts(l', b, p, q);
      AckedAgrees(l', f', b, p, q);
      Hit(l', f', b, p, q);
      SettlesLater(l', f', p, q, 0, 1);
    }
  }

  lemma AckedAgrees(l: Node, f: Node, a: C.State, p: nat, q: nat)
    requires Pair(l, f, a, p, q)
    ensures p < |a.peers| && q < |a.peers| && q < |l.matchIndex|
    ensures var m := l.matchIndex[q];
      && m <= |a.peers[q].log| && m <= |a.peers[p].log| && a.peers[p].log[..m] == a.peers[q].log[..m]
      && TermAt(a.peers[q].log, m) == TermAt(a.peers[p].log, m)
  {
    var m, t := l.matchIndex[q], l.currentTerm;
    assert C.AckOk(a, q) && C.AckTrue(a, q, t);
    assert a.lead[t].log[..C.Ack(a.peers[q], t)][..m] == a.peers[q].log[..m];
    assert m > 0 ==> a.peers[p].log[..m][m - 1] == a.peers[q].log[..m][m - 1];
  }

  /** How many exchanges may still fail. */
  function Budget(next: nat, leaderBase: nat, base: nat): nat {
    if next <= leaderBase then 2
    else if next <= base then 1
    else next - base + 1
  }

  lemma {:induction false} Converges(l: Node, f: Node, a: C.State, p: nat, q: nat)
    requires Pair(l, f, a, p, q) && q < |l.nextIndex|
    ensures Settles(l, f, p, q, Budget(l.nextIndex[q], l.lastIncludedIndex, f.lastIncludedIndex))
    decreases l.nextIndex[q]
  {
    hide C.Inv, NodeRel, Round;
    PairFacts(l, f, a, p, q);
    var next := l.nextIndex[q];
    if next <= l.lastIncludedIndex {
      AfterInstall(l, f, a, p, q);
    } else if next <= f.lastIncludedIndex {
      JumpUp(l, f, a, p, q);
    } else if next == f.lastIncludedIndex + 1 {
      HitAtBase(l, f, a, p, q);
      SettlesLater(l, f, p, q, 0, 2);
    } else {
      RejectLowers(l, f, a, p, q);
      var (l', f', ok) := Round(l, f, p, q);
      if !ok {
        var b := RoundKeepsPair(l, f, a, p, q);
        Converges(l', f', b, p, q);
        SettlesLater(l', f', p, q, Budget(l'.nextIndex[q], l.lastIncludedIndex, f.lastIncludedIndex), next - f.lastIncludedIndex);
      }
    }
  }

  lemma InstallStages(f: Node, args: SnapshotArgs)
    requires |f.log| > 0 && f.currentTerm <= args.term
    ensures |Recognise(f, args.term).log| > 0
    ensures InstallSnapshot(f, args).0 == InstallSnapshot(Recognise(f, args.term), args).0
    ensures InstallSnapshot(f, args).1 <= args.term && InstallSnapshot(Recognise(f, args.term), args).1 <= args.term
  {
  }

  /** A server of no later term answers like one that already follows the leader. */
  lemma FirstContact(l: Node, f: Node, me: nat, peer: nat, k: nat)
    requires Ready(l, f, peer) && l.role == Leader && f.currentTerm <= l.currentTerm
    requires Settles(l, Recognise(f, l.currentTerm), me, peer, k)
    ensures Settles(l, f, me, peer, k)
  {
    hide AppendEntries, InstallSnapshot, OnAppendReply, Recognise;
    match Replicate(l, me, peer) {
      case SendAppend(args) => AppendStages(f, args);
      case SendSnapshot(args) => InstallStages(f, args);
    }
    assert Round(l, f, me, peer) == Round(l, Recognise(f, l.currentTerm), me, peer);
  }

  /** In every reachable state, a leader and a follower whose term is not later, exchanging
      fresh replies, agree on where to append within nextIndex + 1 failed exchanges. */
  lemma BackupTerminates(run: seq<State>, i: nat, p: nat, q: nat)
    requires Run(run) && At(run, i, p) && At(run, i, q) && p != q
    requires run[i].nodes[p].role == Leader && run[i].nodes[q].currentTerm <= run[i].nodes[p].currentTerm
    ensures q < |run[i].nodes[p].nextIndex|
    ensures Settles(run[i].nodes[p], run[i].nodes[q], p, q, run[i].nodes[p].nextIndex[q] + 1)
  {
    hide C.Inv, C.Grows, P.Local, NodeRel, Follows, Settles, Recognise;
    var h := HistoryExists(run);
    Moment(run, h, i, p);
    Moment(run, h, i, q);
    var l, f := run[i].nodes[p], run[i].nodes[q];
    var b := RecogniseRefines(f, h[i], q, l.currentTerm);
    OtherKeeps(l, h[i], b, q, p);
    var g := Recognise(f, l.currentTerm);
    Basics(g, b, q);
    PairFacts(l, g, b, p, q);
    Converges(l, g, b, p, q);
    SettlesLater(l, g, p, q, Budget(l.nextIndex[q], l.lastIncludedIndex, g.lastIncludedIndex), l.nextIndex[q] + 1);
    Basics(f, h[i], q);
    FirstContact(l, f, p, q, l.nextIndex[q] + 1);
  }
}
