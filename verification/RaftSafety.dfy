/** What every run of the cluster guarantees. */
module RaftSafety {
  import opened RaftLog
  import opened RaftNode
  import opened Cluster
  import C = Consensus
  import opened Refinement
  import opened Handlers
  import opened ClusterProof

  /** A server's full log in the history of a run. */
  ghost function Full(h: seq<C.State>, i: nat, p: nat): seq<Entry>
    requires i < |h| && p < |h[i].peers|
  {
    h[i].peers[p].log
  }

  /** Server `p` exists at moment `i` of the run. */
  predicate At(run: seq<State>, i: nat, p: nat) {
    i < |run| && p < |run[i].nodes|
  }

  lemma Moment(run: seq<State>, h: seq<C.State>, i: nat, p: nat)
    requires History(run, h) && At(run, i, p)
    ensures C.Inv(h[i]) && Follows(run[i], h[i]) && NodeRel(run[i].nodes[p], h[i], p)
  {
    assert Follows(run[i], h[i]);
  }

  // ---------------------------------------------------------------- elections

  /** Election safety: a term has at most one leader, at whatever moments it is observed. */
  lemma ElectionSafety(run: seq<State>, i: nat, j: nat, p: nat, q: nat)
    requires Run(run) && At(run, i, p) && At(run, j, q)
    requires run[i].nodes[p].role == Leader && run[j].nodes[q].role == Leader
    requires run[i].nodes[p].currentTerm == run[j].nodes[q].currentTerm
    ensures p == q
  {
    var h := HistoryExists(run);
    Moment(run, h, i, p);
    Moment(run, h, j, q);
    var t := run[i].nodes[p].currentTerm;
    if i <= j {
      assert C.Grows(h[i], h[j]) && C.ReignGrows(h[i].lead, h[j].lead, t);
    } else {
      assert C.Grows(h[j], h[i]) && C.ReignGrows(h[j].lead, h[i].lead, t);
    }
  }

  // ---------------------------------------------------------------- logs

  /** Behind every reachable state there are full logs of which the servers keep the upper part.
      They match wherever they agree on a term, their terms never decrease, and every term
      starts at one index. */
  lemma FullLogs(run: seq<State>, i: nat) returns (full: seq<seq<Entry>>)
    requires Run(run) && i < |run|
    ensures |full| == |run[i].nodes|
    ensures forall p | 0 <= p < |full| :: Compacts(run[i].nodes[p], full[p])
    ensures forall p, q | 0 <= p < |full| && 0 <= q < |full| :: Match(full[p], full[q])
  {
    var h := HistoryExists(run);
    assert Follows(run[i], h[i]);
    full := seq(|run[i].nodes|, p requires 0 <= p < |h[i].peers| => h[i].peers[p].log);
    forall p | 0 <= p < |full| ensures Compacts(run[i].nodes[p], full[p]) {
      Moment(run, h, i, p);
      CompactsFull(run[i].nodes[p], h[i], p);
    }
    forall p, q | 0 <= p < |full| && 0 <= q < |full| ensures Match(full[p], full[q]) {
      assert C.LogOk(h[i], p) && C.LogOk(h[i], q);
      LogsMatch(h[i], full[p], full[q]);
    }
  }

  /** A server keeps the part of `log` above its snapshot. */
  ghost predicate Compacts(node: Node, log: seq<Entry>) {
    && node.lastIncludedIndex <= node.lastApplied <= node.commitIndex <= |log|
    && node.log == Trim(log, node.lastIncludedIndex)
    && node.lastIncludedTerm == TermAt(log, node.lastIncludedIndex)
    && (forall k, l | 0 <= k <= l < |log| :: 0 < log[k].term <= log[l].term <= node.currentTerm)
  }

  predicate Begins(log: seq<Entry>, k: nat, t: nat) {
    0 < k <= |log| && TermAt(log, k) == t && TermAt(log, k - 1) != t
  }

  ghost predicate Match(x: seq<Entry>, y: seq<Entry>) {
    && (forall k: nat | k <= |x| && k <= |y| && TermAt(x, k) == TermAt(y, k) :: x[..k] == y[..k])
    && (forall k: nat, l: nat, t: nat | Begins(x, k, t) && Begins(y, l, t) :: k == l)
  }

  lemma CompactsFull(node: Node, a: C.State, p: nat)
    requires C.Inv(a) && NodeRel(node, a, p)
    ensures Compacts(node, a.peers[p].log)
  {
    var log := a.peers[p].log;
    assert C.LogOk(a, p);
    forall k, l | 0 <= k <= l < |log| ensures 0 < log[k].term <= log[l].term <= node.currentTerm {
      C.TermsOrdered(a, log, k, l);
      TermsPositive(a, log, k + 1);
    }
  }

  /** The entries of a term start right above the log its leader was elected with. */
  lemma TermStart(a: C.State, x: seq<Entry>, k: nat, t: nat)
    requires C.Inv(a) && C.Sound(a.lead, x) && Begins(x, k, t)
    ensures t in a.lead && a.lead[t].leader < |a.peers| && t in a.peers[a.lead[t].leader].cand
    ensures k == |a.peers[a.lead[t].leader].cand[t]| + 1
  {
    assert C.RootedAt(a.lead, x, k - 1);
    assert C.LeadOk(a, t);
    var c := a.lead[t].leader;
    assert C.CandOk(a, c, t);
    var cand := a.peers[c].cand[t];
    var top := a.lead[t].log;
    assert x[..k][k - 1] == top[k - 1];
    assert k > 1 ==> x[..k][k - 2] == top[k - 2];
  }

  lemma LogsMatch(a: C.State, x: seq<Entry>, y: seq<Entry>)
    requires C.Inv(a) && C.Sound(a.lead, x) && C.Sound(a.lead, y)
    ensures Match(x, y)
  {
    forall k: nat | k <= |x| && k <= |y| && TermAt(x, k) == TermAt(y, k) ensures x[..k] == y[..k] {
      C.LogMatching(a, x, y, k);
    }
    forall k: nat, l: nat, t: nat | Begins(x, k, t) && Begins(y, l, t) ensures k == l {
      TermStart(a, x, k, t);
      TermStart(a, y, l, t);
    }
  }

  // ---------------------------------------------------------------- commitment

  lemma CommittedAt(run: seq<State>, h: seq<C.State>, i: nat, p: nat, k: nat)
    requires History(run, h) && At(run, i, p) && k <= run[i].nodes[p].commitIndex
    ensures p < |h[i].peers| && k <= |Full(h, i, p)|
    ensures C.PrefixCommitted(h[i], Full(h, i, p)[..k], h[i].peers[p].term)
  {
    Moment(run, h, i, p);
    assert C.CommitOk(h[i], p);
    var log := Full(h, i, p);
    C.PrefixCommittedShorter(h[i], log[..h[i].peers[p].commit], log[..k], h[i].peers[p].term);
  }

  /** State machine safety on full logs: what two servers have committed never differs,
      even when they are looked at at different moments of the run. */
  lemma CommittedNeverDiffers(run: seq<State>, h: seq<C.State>, i: nat, j: nat, p: nat, q: nat, k: nat)
    requires History(run, h) && At(run, i, p) && At(run, j, q) && i <= j
    requires k <= run[i].nodes[p].commitIndex && k <= run[j].nodes[q].commitIndex
    ensures p < |h[i].peers| && q < |h[j].peers|
    ensures k <= |Full(h, i, p)| && k <= |Full(h, j, q)| && Full(h, i, p)[..k] == Full(h, j, q)[..k]
  {
    CommittedAt(run, h, i, p, k);
    CommittedAt(run, h, j, q, k);
    Moment(run, h, j, q);
    var x, y := Full(h, i, p)[..k], Full(h, j, q)[..k];
    var s := h[i].peers[p].term;
    assert C.Grows(h[i], h[j]);
    C.PrefixCommittedGrows(h[i], h[j], x, s, s);
    C.CommittedAgree(h[j], x, y, s, h[j].peers[q].term);
  }

  /** The committed log: every committed prefix is a prefix of it. */
  ghost predicate CommittedLog(a: C.State, log: seq<Entry>) {
    && (exists s: nat :: C.PrefixCommitted(a, log, s))
    && forall x, s: nat | C.PrefixCommitted(a, x, s) :: x <= log
  }

  lemma {:induction false} LengthBound(lead: map<nat, C.Reign>, ts: set<nat>) returns (n: nat)
    requires ts <= lead.Keys
    ensures forall t | t in ts :: |lead[t].log| <= n
    decreases |ts|
  {
    if ts == {} {
      n := 0;
    } else {
      assert |ts| > 0;
      var t :| t in ts;
      n := LengthBound(lead, ts - {t});
      n := Higher(n, |lead[t].log|);
    }
  }

  lemma {:induction false} LongestCommitted(a: C.State, x: seq<Entry>, s: nat, bound: nat) returns (log: seq<Entry>)
    requires C.Inv(a) && C.PrefixCommitted(a, x, s) && forall t | t in a.lead :: |a.lead[t].log| <= bound
    ensures CommittedLog(a, log)
    decreases bound - |x|
  {
    if exists y, u: nat :: C.PrefixCommitted(a, y, u) && |y| > |x| {
      var y, u: nat :| C.PrefixCommitted(a, y, u) && |y| > |x|;
      assert |y| <= bound by {
        var t: nat, k: nat :| t <= u && C.Within(a, y, t, k);
      }
      log := LongestCommitted(a, y, u, bound);
    } else {
      log := x;
      forall y, u: nat | C.PrefixCommitted(a, y, u) ensures y <= x {
        C.CommittedAgree(a, y, x, u, s);
      }
    }
  }

  /** Every state of a history has a committed log. */
  lemma CommittedLogExists(a: C.State) returns (log: seq<Entry>)
    requires C.Inv(a)
    ensures CommittedLog(a, log)
  {
    var bound := LengthBound(a.lead, a.lead.Keys);
    assert C.PrefixCommitted(a, [], 0);
    log := LongestCommitted(a, [], 0, bound);
  }

  lemma CommittedLogSound(a: C.State, log: seq<Entry>)
    requires C.Inv(a) && CommittedLog(a, log)
    ensures C.Sound(a.lead, log)
  {
    var s: nat :| C.PrefixCommitted(a, log, s);
    if log != [] {
      var t: nat, k: nat :| t <= s && C.Within(a, log, t, k);
      assert C.LeadOk(a, t) && log == a.lead[t].log[..|log|];
      C.SoundPrefix(a.lead, a.lead[t].log, |log|);
    }
  }

  /** The same, on what the servers really keep. */
  lemma RetainedNeverDiffers(run: seq<State>, i: nat, j: nat, p: nat, q: nat, k: nat)
    requires Run(run) && At(run, i, p) && At(run, j, q) && i <= j
    requires run[i].nodes[p].lastIncludedIndex < k <= run[i].nodes[p].commitIndex
    requires run[j].nodes[q].lastIncludedIndex < k <= run[j].nodes[q].commitIndex
    ensures k - run[i].nodes[p].lastIncludedIndex < |run[i].nodes[p].log|
    ensures k - run[j].nodes[q].lastIncludedIndex < |run[j].nodes[q].log|
    ensures run[i].nodes[p].log[k - run[i].nodes[p].lastIncludedIndex]
         == run[j].nodes[q].log[k - run[j].nodes[q].lastIncludedIndex]
  {
    var h := HistoryExists(run);
    Moment(run, h, i, p);
    Moment(run, h, j, q);
    CommittedNeverDiffers(run, h, i, j, p, q, k);
    TrimAt(Full(h, i, p), run[i].nodes[p].lastIncludedIndex, k);
    TrimAt(Full(h, j, q), run[j].nodes[q].lastIncludedIndex, k);
    assert Full(h, i, p)[..k][k - 1] == Full(h, j, q)[..k][k - 1];
  }

  /** No two servers ever hand different commands to their services at one index. */
  lemma StateMachineSafety(run: seq<State>, i: nat, x: Applied, y: Applied)
    requires Run(run) && i < |run| && x in run[i].applied && y in run[i].applied
    requires x.index == y.index
    ensures x.command == y.command
  {
    var h := HistoryExists(run);
    assert Follows(run[i], h[i]);
    var a := h[i];
    assert AppliedCommitted(a, x) && AppliedCommitted(a, y);
    var t: nat, k: nat :| AppliedOk(a, x, t, k);
    var u: nat, l: nat :| AppliedOk(a, y, u, l);
    var m := x.index;
    if t <= u {
      C.LeaderCompleteness(a, t, k, u);
      assert a.lead[t].log[..k][m - 1] == a.lead[u].log[m - 1];
    } else {
      C.LeaderCompleteness(a, u, l, t);
      assert a.lead[u].log[..l][m - 1] == a.lead[t].log[m - 1];
    }
  }

  /** Leader completeness: what the leader of a term has committed is in the log of every
      leader of a later term, at whatever moments the two are observed. */
  lemma LaterLeadersHaveIt(run: seq<State>, h: seq<C.State>, i: nat, j: nat, p: nat, q: nat)
    requires History(run, h) && At(run, i, p) && At(run, j, q)
    requires run[j].nodes[q].role == Leader
    requires run[i].nodes[p].currentTerm < run[j].nodes[q].currentTerm
    ensures p < |h[i].peers| && q < |h[j].peers|
    ensures run[i].nodes[p].commitIndex <= |Full(h, i, p)|
    ensures Full(h, i, p)[..run[i].nodes[p].commitIndex] <= Full(h, j, q)
  {
    var k := run[i].nodes[p].commitIndex;
    var u := run[j].nodes[q].currentTerm;
    CommittedAt(run, h, i, p, k);
    Moment(run, h, i, p);
    Moment(run, h, j, q);
    var m := if i <= j then j else i;
    assert C.Grows(h[i], h[m]) && C.Grows(h[j], h[m]);
    assert C.ReignGrows(h[j].lead, h[m].lead, u);
    assert Follows(run[m], h[m]);
    var x := Full(h, i, p)[..k];
    var s := h[i].peers[p].term;
    C.PrefixCommittedGrows(h[i], h[m], x, s, s);
    C.CommittedInLead(h[m], x, s, u);
    assert C.LogOk(h[i], p);
    ElectedWith(h[j], h[m], q, u, x);
  }

  /** Entries of earlier terms were in a leader's log from its election on. */
  lemma ElectedWith(a: C.State, b: C.State, q: nat, u: nat, x: seq<Entry>)
    requires C.Inv(a) && C.Inv(b) && C.Grows(a, b) && q < |a.peers|
    requires u in a.lead && u in b.lead && a.lead[u].leader == q == b.lead[u].leader && a.lead[u].log == a.peers[q].log
    requires x <= b.lead[u].log && (forall k | 0 <= k < |x| :: x[k].term < u)
    ensures x <= a.peers[q].log
  {
    assert C.LeadOk(a, u) && C.LeadOk(b, u) && C.PeerGrows(a.peers[q], b.peers[q]);
    assert C.ReignGrows(a.lead, b.lead, u);
    var cand := a.peers[q].cand[u];
    assert |x| > |cand| ==> x[|cand|] == b.lead[u].log[|cand|];
  }

  // ---------------------------------------------------------------- indices, disk, matchIndex

  /** The indices of every server stay in order, and every step it can take is in range. */
  lemma IndexInvariant(run: seq<State>, i: nat, p: nat)
    requires Run(run) && At(run, i, p)
    ensures var node := run[i].nodes[p];
      && |node.log| > 0
      && node.lastIncludedIndex <= node.lastApplied <= node.commitIndex <= LastLogIndex(node)
      && node.log[0] == Entry(Nothing, node.lastIncludedTerm)
      && |node.nextIndex| == |node.matchIndex| == |run[i].nodes|
      && (node.role == Leader ==> forall q: nat | q < |node.nextIndex| :: 1 <= node.nextIndex[q] <= LastLogIndex(node) + 1)
    ensures forall e | Actor(e) == p && Enabled(run[i], e) :: InRange(run[i], e)
  {
    var h := HistoryExists(run);
    Moment(run, h, i, p);
    Reads(run[i].nodes[p], h[i], p, run[i].nodes[p].lastIncludedIndex);
    forall e | Actor(e) == p && Enabled(run[i], e) ensures InRange(run[i], e) {
      NoPanic(run[i], h[i], e);
    }
  }

  /** Crash transparency: at every step boundary the disk holds the term, vote, log and
      snapshot base that are in memory, so a restart forgets none of them. */
  lemma CrashTransparency(run: seq<State>, i: nat, p: nat)
    requires Run(run) && At(run, i, p)
    ensures Load(run[i].nodes[p].persisted) == Memory(run[i].nodes[p])
    ensures Memory(Restart(run[i].nodes[p])) == Memory(run[i].nodes[p])
    ensures Restart(run[i].nodes[p]).commitIndex == Restart(run[i].nodes[p]).lastApplied
            == run[i].nodes[p].lastIncludedIndex
  {
    var h := HistoryExists(run);
    Moment(run, h, i, p);
  }

  /** matchIndex is truthful: a peer that is still in the leader's term agrees with the
      leader's log through matchIndex. */
  lemma MatchIndexTruthful(run: seq<State>, h: seq<C.State>, i: nat, p: nat, q: nat)
    requires History(run, h) && At(run, i, p) && At(run, i, q) && p != q
    requires run[i].nodes[p].role == Leader && run[i].nodes[q].currentTerm == run[i].nodes[p].currentTerm
    ensures p < |h[i].peers| && q < |h[i].peers| && q < |run[i].nodes[p].matchIndex|
    ensures var m := run[i].nodes[p].matchIndex[q];
      m <= |Full(h, i, p)| && m <= |Full(h, i, q)| && Full(h, i, p)[..m] == Full(h, i, q)[..m]
  {
    Moment(run, h, i, p);
    Moment(run, h, i, q);
    assert C.AckOk(h[i], q) && C.AckTrue(h[i], q, run[i].nodes[p].currentTerm);
  }

  // ---------------------------------------------------------------- Start

  /** The event is a Start that places `x`. */
  predicate Places(s: State, e: Event, x: Placed)
    requires Enabled(s, e) && InRange(s, e)
  {
    e.Submit? && x in Reported(Start(s.nodes[e.server], e.command).1, e.command)
  }

  /** Between moments `i` and `i + 1` a Start places `x`. */
  ghost predicate StartsAt(run: seq<State>, i: nat, x: Placed) {
    && i + 1 < |run|
    && exists e :: Enabled(run[i], e) && InRange(run[i], e) && run[i + 1] == Step(run[i], e) && Places(run[i], e, x)
  }

  /** Every entry of a full log was placed by a Start that reported its index and term. */
  lemma EntriesWereStarted(s: State, a: C.State, log: seq<Entry>, k: nat)
    requires Follows(s, a) && C.Sound(a.lead, log) && 0 < k <= |log|
    ensures Placed(k, log[k - 1]) in s.started
  {
    assert C.RootedAt(a.lead, log, k - 1);
    assert log[..k][k - 1] == a.lead[log[k - 1].term].log[k - 1];
    assert C.Has(a.lead, k, log[k - 1]);
  }

  lemma {:induction false} StartedSomewhere(run: seq<State>, m: nat, x: Placed) returns (i: nat)
    requires Run(run) && m < |run| && x in run[m].started
    ensures i < m && StartsAt(run, i, x)
    decreases m
  {
    assert Next(run[m - 1], run[m]);
    var e :| Enabled(run[m - 1], e) && InRange(run[m - 1], e) && run[m] == Step(run[m - 1], e);
    if x in run[m - 1].started {
      i := StartedSomewhere(run, m - 1, x);
    } else {
      i := m - 1;
      assert Places(run[m - 1], e, x);
    }
  }

  /** A Start finds its leader's log just short of the index it reports. */
  lemma StartLength(run: seq<State>, h: seq<C.State>, i: nat, x: Placed)
    requires History(run, h) && StartsAt(run, i, x)
    ensures var t := x.entry.term;
      && t in h[i].lead && |h[i].lead[t].log| == x.index - 1
      && t in h[i + 1].lead && |h[i + 1].lead[t].log| == x.index && C.Has(h[i + 1].lead, x.index, x.entry)
  {
    hide C.Inv, C.Grows;
    var e :| Enabled(run[i], e) && InRange(run[i], e) && run[i + 1] == Step(run[i], e) && Places(run[i], e, x);
    var p := e.server;
    Moment(run, h, i, p);
    Moment(run, h, i + 1, p);
    var n, n' := run[i].nodes[p], run[i + 1].nodes[p];
    TrimAt(Full(h, i, p), n.lastIncludedIndex, |Full(h, i, p)|);
    TrimAt(Full(h, i + 1, p), n'.lastIncludedIndex, |Full(h, i + 1, p)|);
  }

  /** Entries stand in a log in the order in which they were started: however late they are
      replicated and committed, no entry overtakes one that was started before it. */
  lemma StartsInOrder(run: seq<State>, h: seq<C.State>, i: nat, j: nat, m: nat, x: Placed, y: Placed, log: seq<Entry>)
    requires History(run, h) && i < j < m < |run| && StartsAt(run, i, x) && StartsAt(run, j, y)
    requires C.Sound(h[m].lead, log) && 0 < x.index <= |log| && 0 < y.index <= |log|
    requires log[x.index - 1].term == x.entry.term && log[y.index - 1].term == y.entry.term
    ensures x.index < y.index
  {
    hide C.Inv, C.Grows, C.Sound;
    StartLength(run, h, i, x);
    StartLength(run, h, j, y);
    if y.index <= x.index {
      assert Follows(run[i + 1], h[i + 1]) && C.Grows(h[i + 1], h[m]) && C.Grows(h[i + 1], h[j]);
      Precedes(h[i + 1], h[j], h[m], x, y, log);
    }
  }

  /** What a leader's log contains had a place in the reign of its own term by then. */
  lemma Precedes(a: C.State, b: C.State, c: C.State, x: Placed, y: Placed, log: seq<Entry>)
    requires C.Grows(a, b) && C.Grows(a, c) && C.Sound(c.lead, log) && C.Inv(a)
    requires 0 < y.index <= x.index <= |log|
    requires log[x.index - 1].term == x.entry.term && log[y.index - 1].term == y.entry.term
    requires x.entry.term in a.lead && |a.lead[x.entry.term].log| == x.index
    ensures y.entry.term in b.lead ==> |b.lead[y.entry.term].log| >= y.index
  {
    var t, u := x.entry.term, y.entry.term;
    assert C.RootedAt(c.lead, log, x.index - 1) && C.ReignGrows(a.lead, c.lead, t);
    assert log[..x.index] == a.lead[t].log;
    assert C.LeadOk(a, t) && C.RootedAt(a.lead, a.lead[t].log, y.index - 1);
    assert C.ReignGrows(a.lead, b.lead, u);
  }

  /** The index and term that Start reports name the command: no log, on any server and at any
      later moment, has another command of that term at that index. */
  lemma StartPlaces(run: seq<State>, h: seq<C.State>, i: nat, j: nat, p: nat, q: nat, command: Command)
    requires History(run, h) && i < j && At(run, i, p) && At(run, j, q) && run[i].nodes[p].role == Leader
    requires Enabled(run[i], Submit(p, command)) && InRange(run[i], Submit(p, command))
    requires run[i + 1] == Step(run[i], Submit(p, command))
    ensures q < |h[j].peers| && Start(run[i].nodes[p], command).1.Started?
    ensures var r := Start(run[i].nodes[p], command).1;
      0 < r.index <= |Full(h, j, q)| && TermAt(Full(h, j, q), r.index) == r.term ==>
        Full(h, j, q)[r.index - 1].command == command
  {
    hide C.Inv, C.Grows;
    Moment(run, h, i, p);
    Moment(run, h, i + 1, p);
    Moment(run, h, j, q);
    var n, r := run[i + 1].nodes[p], Start(run[i].nodes[p], command).1;
    TrimAt(Full(h, i + 1, p), n.lastIncludedIndex, r.index);
    assert C.Grows(h[i + 1], h[j]);
    if r.index <= |Full(h, j, q)| && TermAt(Full(h, j, q), r.index) == r.term {
      TermNames(h[i + 1], h[j], p, q, r.index);
    }
  }

  /** An entry of a leader's own term is the only one of that term at its index. */
  lemma TermNames(a: C.State, b: C.State, p: nat, q: nat, k: nat)
    requires C.Inv(a) && C.Inv(b) && C.Grows(a, b) && p < |a.peers| && q < |b.peers|
    requires a.peers[p].term in a.lead && a.lead[a.peers[p].term].log == a.peers[p].log
    requires 0 < k <= |a.peers[p].log| && k <= |b.peers[q].log|
    requires TermAt(a.peers[p].log, k) == a.peers[p].term == TermAt(b.peers[q].log, k)
    ensures a.peers[p].log[k - 1] == b.peers[q].log[k - 1]
  {
    var t, x := a.peers[p].term, b.peers[q].log;
    assert C.ReignGrows(a.lead, b.lead, t) && C.LogOk(b, q) && C.RootedAt(b.lead, x, k - 1);
    assert x[..k][k - 1] == b.lead[t].log[k - 1];
  }

  /** What one step of a server may do to its term, commit index and vote. */
  predicate Progress(node: Node, node': Node) {
    && node'.currentTerm >= node.currentTerm
    && node'.commitIndex >= node.commitIndex && node'.lastApplied >= node.lastApplied
    && (node'.currentTerm == node.currentTerm && node.votedFor != -1 ==> node'.votedFor == node.votedFor)
  }

  lemma ReceiveProgresses(node: Node, m: Message)
    requires |node.log| > 0
    requires m.AppendRep? || m.InstallRep? ==>
      m.src < |node.nextIndex| == |node.matchIndex| && node.lastIncludedIndex <= node.commitIndex
    ensures Progress(node, Receive(node, m).0)
  {
  }

  /** Terms never decrease, not even across a crash; the commit index decreases only by a
      crash; a vote stands for as long as the server stays in its term. */
  lemma OnlyCrashLowersCommit(run: seq<State>, i: nat, e: Event, p: nat)
    requires Run(run) && At(run, i, p) && Enabled(run[i], e) && InRange(run[i], e)
    ensures p < |Step(run[i], e).nodes|
    ensures var node, node' := run[i].nodes[p], Step(run[i], e).nodes[p];
      if e.Crash? then node'.currentTerm == node.currentTerm && node'.votedFor == node.votedFor
      else Progress(node, node')
  {
    CrashTransparency(run, i, p);
    if e.Deliver? {
      ReceiveProgresses(run[i].nodes[Actor(e)], e.message);
    }
  }
}
