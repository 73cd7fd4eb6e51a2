/** The consensus protocol on full, uncompacted logs.

    A state keeps, beside each server's term, log and commit index, the history that the
    safety argument speaks about: the votes a server cast, the log it stood for election
    with, how much of each leader's log it acknowledged, and for every term that elected
    a leader the ever-growing log of that leader. Every critical section of the compacted
    implementation is a short sequence of the seven steps below. */
module Consensus {
  import opened Quorum
  import opened RaftLog

  datatype Peer = Peer(
    term: nat,
    log: seq<Entry>,
    commit: nat,
    vote: map<nat, nat>,          // term -> candidate this server voted for
    cand: map<nat, seq<Entry>>,   // term -> log this server stood for election with
    ack: map<nat, nat>)           // term -> length of that leader's log it acknowledged

  /** A term that elected a leader. */
  datatype Reign = Reign(leader: nat, log: seq<Entry>, voters: set<nat>)

  datatype State = State(peers: seq<Peer>, lead: map<nat, Reign>)

  function Ack(p: Peer, t: nat): nat {
    if t in p.ack then p.ack[t] else 0
  }

  // ---------------------------------------------------------------- steps

  /** A candidate's log is at least as up to date as a voter's. */
  predicate UpToDate(c: seq<Entry>, v: seq<Entry>) {
    LastTerm(c) > LastTerm(v) || (LastTerm(c) == LastTerm(v) && |c| >= |v|)
  }

  /** The log of a follower that is told its leader's log begins with `m`. */
  function Adopted(log: seq<Entry>, m: seq<Entry>): seq<Entry> {
    if m <= log then log else m
  }

  function Stand(a: State, c: nat): State
    requires c < |a.peers|
  {
    var p := a.peers[c];
    var t := p.term + 1;
    a.(peers := a.peers[c := p.(term := t, vote := p.vote[t := c], cand := p.cand[t := p.log])])
  }

  function BumpTerm(a: State, v: nat, t: nat): State
    requires v < |a.peers|
  {
    a.(peers := a.peers[v := a.peers[v].(term := t)])
  }

  predicate CanGrant(a: State, v: nat, c: nat, t: nat) {
    && v < |a.peers| && c < |a.peers|
    && a.peers[v].term == t
    && (t in a.peers[v].vote ==> a.peers[v].vote[t] == c)
    && t in a.peers[c].cand
    && UpToDate(a.peers[c].cand[t], a.peers[v].log)
  }

  function Grant(a: State, v: nat, c: nat, t: nat): State
    requires v < |a.peers|
  {
    var p := a.peers[v];
    a.(peers := a.peers[v := p.(vote := p.vote[t := c])])
  }

  ghost predicate CanElect(a: State, c: nat, t: nat, q: set<nat>) {
    && c < |a.peers|
    && a.peers[c].term == t
    && t !in a.lead
    && t in a.peers[c].cand && a.peers[c].cand[t] == a.peers[c].log
    && Majority(q, |a.peers|)
    && forall v :: v in q ==> VotedFor(a, v, t, c)
  }

  function Elect(a: State, c: nat, t: nat, q: set<nat>): State
    requires c < |a.peers|
  {
    var p := a.peers[c];
    State(a.peers[c := p.(ack := p.ack[t := |p.log|])],
          a.lead[t := Reign(c, p.log, q)])
  }

  predicate CanAppend(a: State, c: nat, t: nat, e: Entry) {
    && c < |a.peers|
    && a.peers[c].term == t
    && t in a.lead && a.lead[t].leader == c && a.lead[t].log == a.peers[c].log
    && e.term == t
  }

  function Append(a: State, c: nat, t: nat, e: Entry): State
    requires c < |a.peers| && t in a.lead
  {
    var p := a.peers[c];
    State(a.peers[c := p.(log := p.log + [e], ack := p.ack[t := |p.log| + 1])],
          a.lead[t := a.lead[t].(log := p.log + [e])])
  }

  predicate CanAdopt(a: State, v: nat, t: nat, m: nat) {
    && v < |a.peers|
    && a.peers[v].term == t
    && t in a.lead && m <= |a.lead[t].log|
  }

  function Adopt(a: State, v: nat, t: nat, m: nat): State
    requires CanAdopt(a, v, t, m)
  {
    var p := a.peers[v];
    a.(peers := a.peers[v := p.(log := Adopted(p.log, a.lead[t].log[..m]),
                                ack := p.ack[t := Higher(Ack(p, t), m)])])
  }

  ghost predicate CanAdvance(a: State, v: nat, c: nat) {
    && v < |a.peers|
    && c <= |a.peers[v].log|
    && PrefixCommitted(a, a.peers[v].log[..c], a.peers[v].term)
  }

  /** Also the restart of a server, which falls back to the commit index of its snapshot. */
  function Advance(a: State, v: nat, c: nat): State
    requires v < |a.peers|
  {
    a.(peers := a.peers[v := a.peers[v].(commit := c)])
  }

  // ---------------------------------------------------------------- invariant

  /** The prefix of `log` that ends at position `i` was once the log of the leader
      that created the entry there. */
  predicate RootedAt(lead: map<nat, Reign>, log: seq<Entry>, i: nat)
    requires i < |log|
  {
    log[i].term in lead && log[..i + 1] <= lead[log[i].term].log
  }

  ghost predicate Sound(lead: map<nat, Reign>, log: seq<Entry>) {
    forall i: nat | i < |log| :: RootedAt(lead, log, i)
  }

  ghost predicate TermsUpTo(log: seq<Entry>, t: nat) {
    forall i | 0 <= i < |log| :: log[i].term <= t
  }

  predicate VotedFor(a: State, v: nat, t: nat, c: nat) {
    v < |a.peers| && t in a.peers[v].vote && a.peers[v].vote[t] == c
  }

  /** The first `k` entries of the leader of `t` end in an entry of term `t` itself:
      only such prefixes are committed by counting. */
  predicate InReign(lead: map<nat, Reign>, t: nat, k: nat) {
    t in lead && 0 < k <= |lead[t].log| && lead[t].log[k - 1].term == t
  }

  /** The leader of its term once had the entry `e` at the one-based index `k`. */
  predicate Has(lead: map<nat, Reign>, k: nat, e: Entry) {
    e.term in lead && 0 < k <= |lead[e.term].log| && lead[e.term].log[k - 1] == e
  }

  ghost function Ackers(a: State, t: nat, k: nat): set<nat> {
    set v: nat | v < |a.peers| && Ack(a.peers[v], t) >= k
  }

  /** Servers that have left term `t` and so will never acknowledge `k` entries of it. */
  ghost function Blockers(a: State, t: nat, k: nat): set<nat> {
    set v: nat | v < |a.peers| && a.peers[v].term > t && Ack(a.peers[v], t) < k
  }

  ghost predicate Committed(a: State, t: nat, k: nat) {
    InReign(a.lead, t, k) && Majority(Ackers(a, t, k), |a.peers|)
  }

  ghost predicate Blocked(a: State, t: nat, k: nat) {
    Majority(Blockers(a, t, k), |a.peers|)
  }

  ghost predicate Kept(a: State, t: nat, k: nat, log: seq<Entry>)
    requires InReign(a.lead, t, k)
  {
    a.lead[t].log[..k] <= log || Blocked(a, t, k)
  }

  ghost predicate Within(a: State, x: seq<Entry>, t: nat, k: nat) {
    Committed(a, t, k) && x <= a.lead[t].log[..k]
  }

  ghost predicate PrefixCommitted(a: State, x: seq<Entry>, bound: nat) {
    x == [] || exists t: nat, k: nat :: t <= bound && Within(a, x, t, k)
  }

  ghost predicate LeadOk(a: State, t: nat)
    requires t in a.lead
  {
    var r := a.lead[t];
    && r.leader < |a.peers|
    && Majority(r.voters, |a.peers|)
    && (forall v {:trigger VotedFor(a, v, t, r.leader)} :: v in r.voters ==> VotedFor(a, v, t, r.leader))
    && t in a.peers[r.leader].cand
    && a.peers[r.leader].cand[t] <= r.log
    && Sound(a.lead, r.log)
    && (forall i | |a.peers[r.leader].cand[t]| <= i < |r.log| :: r.log[i].term == t)
  }

  ghost predicate CandOk(a: State, c: nat, t: nat)
    requires c < |a.peers| && t in a.peers[c].cand
  {
    && 0 < t <= a.peers[c].term
    && VotedFor(a, c, t, c)
    && Sound(a.lead, a.peers[c].cand[t])
    && TermsUpTo(a.peers[c].cand[t], t - 1)
  }

  ghost predicate VoteKept(a: State, v: nat, t: nat, t0: nat, k: nat)
    requires v < |a.peers| && t in a.peers[v].vote && a.peers[v].vote[t] < |a.peers|
    requires t in a.peers[a.peers[v].vote[t]].cand
  {
    t0 < t && InReign(a.lead, t0, k) && k <= Ack(a.peers[v], t0) ==>
      Kept(a, t0, k, a.peers[a.peers[v].vote[t]].cand[t])
  }

  ghost predicate VoteOk(a: State, v: nat, t: nat)
    requires v < |a.peers| && t in a.peers[v].vote
  {
    var c := a.peers[v].vote[t];
    && t <= a.peers[v].term
    && c < |a.peers| && t in a.peers[c].cand
    && forall t0: nat, k: nat :: VoteKept(a, v, t, t0, k)
  }

  ghost predicate LogOk(a: State, v: nat)
    requires v < |a.peers|
  {
    Sound(a.lead, a.peers[v].log) && TermsUpTo(a.peers[v].log, a.peers[v].term)
  }

  ghost predicate AckTrue(a: State, v: nat, t: nat)
    requires v < |a.peers|
  {
    var p := a.peers[v];
    t in p.ack ==>
      && t in a.lead && t <= p.term && p.ack[t] <= |a.lead[t].log|
      && (t == p.term ==> a.lead[t].log[..p.ack[t]] <= p.log)
  }

  ghost predicate AckKept(a: State, v: nat, t: nat, k: nat)
    requires v < |a.peers|
  {
    InReign(a.lead, t, k) && k <= Ack(a.peers[v], t) ==> Kept(a, t, k, a.peers[v].log)
  }

  ghost predicate AckOk(a: State, v: nat)
    requires v < |a.peers|
  {
    && (forall t: nat :: AckTrue(a, v, t))
    && (forall t: nat, k: nat :: AckKept(a, v, t, k))
  }

  ghost predicate CommitOk(a: State, v: nat)
    requires v < |a.peers|
  {
    var p := a.peers[v];
    p.commit <= |p.log| && PrefixCommitted(a, p.log[..p.commit], p.term)
  }

  /** What a later leader owes to an earlier reign. */
  ghost predicate Handed(a: State, t: nat, u: nat, k: nat) {
    t < u && u in a.lead && InReign(a.lead, t, k) ==> Kept(a, t, k, a.lead[u].log)
  }

  ghost predicate Inv(a: State) {
    && (forall t: nat {:trigger LeadOk(a, t)} | t in a.lead :: LeadOk(a, t))
    && (forall c: nat, t: nat {:trigger CandOk(a, c, t)} | c < |a.peers| && t in a.peers[c].cand :: CandOk(a, c, t))
    && (forall v: nat, t: nat {:trigger VoteOk(a, v, t)} | v < |a.peers| && t in a.peers[v].vote :: VoteOk(a, v, t))
    && (forall v: nat {:trigger LogOk(a, v)} | v < |a.peers| :: LogOk(a, v))
    && (forall v: nat {:trigger AckOk(a, v)} | v < |a.peers| :: AckOk(a, v))
    && (forall v: nat {:trigger CommitOk(a, v)} | v < |a.peers| :: CommitOk(a, v))
    && (forall t: nat, u: nat, k: nat :: Handed(a, t, u, k))
  }

  // ---------------------------------------------------------------- history only grows

  ghost predicate PeerGrows(p: Peer, q: Peer) {
    && p.term <= q.term
    && (forall t | t in p.vote :: t in q.vote && q.vote[t] == p.vote[t])
    && (forall t | t in p.cand :: t in q.cand && q.cand[t] == p.cand[t])
    && (forall t: nat :: Ack(p, t) <= Ack(q, t))
    && (forall t: nat | t < p.term :: Ack(p, t) == Ack(q, t))
  }

  ghost predicate ReignGrows(a: map<nat, Reign>, b: map<nat, Reign>, t: nat) {
    t in a ==> t in b && b[t].leader == a[t].leader && b[t].voters == a[t].voters && a[t].log <= b[t].log
  }

  ghost predicate Grows(a: State, b: State) {
    && |a.peers| == |b.peers|
    && (forall v: nat {:trigger PeerGrows(a.peers[v], b.peers[v])} | v < |a.peers| :: PeerGrows(a.peers[v], b.peers[v]))
    && (forall t: nat :: ReignGrows(a.lead, b.lead, t))
  }

  lemma GrowsReflexive(a: State)
    ensures Grows(a, a)
  {
  }

  lemma GrowsTransitive(a: State, b: State, c: State)
    requires Grows(a, b) && Grows(b, c)
    ensures Grows(a, c)
  {
    forall v: nat | v < |a.peers| ensures PeerGrows(a.peers[v], c.peers[v]) {
      assert PeerGrows(a.peers[v], b.peers[v]) && PeerGrows(b.peers[v], c.peers[v]);
    }
    forall t: nat ensures ReignGrows(a.lead, c.lead, t) {
      assert ReignGrows(a.lead, b.lead, t) && ReignGrows(b.lead, c.lead, t);
    }
  }

  lemma InReignGrows(a: State, b: State, t: nat, k: nat)
    requires Grows(a, b) && InReign(a.lead, t, k)
    ensures InReign(b.lead, t, k) && b.lead[t].log[..k] == a.lead[t].log[..k]
  {
    assert ReignGrows(a.lead, b.lead, t);
  }

  lemma BlockedGrows(a: State, b: State, t: nat, k: nat)
    requires Grows(a, b) && Blocked(a, t, k)
    ensures Blocked(b, t, k)
  {
    forall v | v in Blockers(a, t, k) ensures v in Blockers(b, t, k) {
      assert PeerGrows(a.peers[v], b.peers[v]);
    }
    LargerIsMajority(Blockers(a, t, k), Blockers(b, t, k), |b.peers|);
  }

  lemma CommittedGrows(a: State, b: State, t: nat, k: nat)
    requires Grows(a, b) && Committed(a, t, k)
    ensures Committed(b, t, k) && b.lead[t].log[..k] == a.lead[t].log[..k]
  {
    InReignGrows(a, b, t, k);
    forall v | v in Ackers(a, t, k) ensures v in Ackers(b, t, k) {
      assert PeerGrows(a.peers[v], b.peers[v]);
    }
    LargerIsMajority(Ackers(a, t, k), Ackers(b, t, k), |b.peers|);
  }

  lemma PrefixCommittedGrows(a: State, b: State, x: seq<Entry>, s: nat, s': nat)
    requires Grows(a, b) && PrefixCommitted(a, x, s) && s <= s'
    ensures PrefixCommitted(b, x, s')
  {
    if x != [] {
      var t: nat, k: nat :| t <= s && Within(a, x, t, k);
      CommittedGrows(a, b, t, k);
      assert Within(b, x, t, k);
    }
  }

  lemma PrefixCommittedShorter(a: State, x: seq<Entry>, y: seq<Entry>, s: nat)
    requires PrefixCommitted(a, x, s) && y <= x
    ensures PrefixCommitted(a, y, s)
  {
    if y != [] {
      var t: nat, k: nat :| t <= s && Within(a, x, t, k);
      assert Within(a, y, t, k);
    }
  }

  lemma KeptGrows(a: State, b: State, t: nat, k: nat, x: seq<Entry>, y: seq<Entry>)
    requires Grows(a, b) && InReign(a.lead, t, k) && Kept(a, t, k, x) && x <= y
    ensures InReign(b.lead, t, k) && Kept(b, t, k, y)
  {
    InReignGrows(a, b, t, k);
    if Blocked(a, t, k) {
      BlockedGrows(a, b, t, k);
    }
  }

  lemma SoundGrows(a: State, b: State, log: seq<Entry>)
    requires Grows(a, b) && Sound(a.lead, log)
    ensures Sound(b.lead, log)
  {
    forall i: nat | i < |log| ensures RootedAt(b.lead, log, i) {
      assert RootedAt(a.lead, log, i);
      assert ReignGrows(a.lead, b.lead, log[i].term);
    }
  }

  // ---------------------------------------------------------------- consequences of the invariant

  /** A committed prefix is not blocked: the two majorities would share a server. */
  lemma CommittedNotBlocked(a: State, t: nat, k: nat)
    requires Committed(a, t, k)
    ensures !Blocked(a, t, k)
  {
    if Blocked(a, t, k) {
      var v := Intersect(Ackers(a, t, k), Blockers(a, t, k), |a.peers|);
    }
  }

  /** Leader completeness: what was committed in some term is in the log of every later leader. */
  lemma LeaderCompleteness(a: State, t: nat, k: nat, u: nat)
    requires Inv(a) && Committed(a, t, k) && t <= u && u in a.lead
    ensures a.lead[t].log[..k] <= a.lead[u].log
  {
    if t < u {
      CommittedNotBlocked(a, t, k);
      assert Handed(a, t, u, k);
    }
  }

  lemma CommittedInLead(a: State, x: seq<Entry>, s: nat, u: nat)
    requires Inv(a) && PrefixCommitted(a, x, s) && s <= u && u in a.lead
    ensures x <= a.lead[u].log
  {
    if x != [] {
      var t: nat, k: nat :| t <= s && Within(a, x, t, k);
      LeaderCompleteness(a, t, k, u);
    }
  }

  /** Committed prefixes never disagree, whichever servers hold them. */
  lemma CommittedAgree(a: State, x: seq<Entry>, y: seq<Entry>, s: nat, s': nat)
    requires Inv(a) && PrefixCommitted(a, x, s) && PrefixCommitted(a, y, s')
    ensures x <= y || y <= x
  {
    if x != [] && y != [] {
      var t: nat, k: nat :| t <= s && Within(a, x, t, k);
      var u: nat, j: nat :| u <= s' && Within(a, y, u, j);
      if t <= u {
        LeaderCompleteness(a, t, k, u);
      } else {
        LeaderCompleteness(a, u, j, t);
      }
    }
  }

  lemma LeadTerms(a: State, t: nat, i: nat)
    requires Inv(a) && t in a.lead && i < |a.lead[t].log|
    ensures a.lead[t].log[i].term <= t
  {
    assert LeadOk(a, t);
    var c := a.lead[t].leader;
    assert CandOk(a, c, t);
    if i < |a.peers[c].cand[t]| {
      assert a.lead[t].log[i] == a.peers[c].cand[t][i];
    }
  }

  /** Terms never decrease along a log. */
  lemma TermsOrdered(a: State, log: seq<Entry>, i: nat, j: nat)
    requires Inv(a) && Sound(a.lead, log) && i <= j < |log|
    ensures log[i].term <= log[j].term
  {
    assert RootedAt(a.lead, log, j);
    var t := log[j].term;
    assert log[..j + 1][i] == log[i];
    LeadTerms(a, t, i);
  }

  /** Log matching: logs that agree on the term at an index agree on everything up to it. */
  lemma LogMatching(a: State, x: seq<Entry>, y: seq<Entry>, i: nat)
    requires Sound(a.lead, x) && Sound(a.lead, y)
    requires i <= |x| && i <= |y| && TermAt(x, i) == TermAt(y, i)
    ensures x[..i] == y[..i]
  {
    if i > 0 {
      assert RootedAt(a.lead, x, i - 1) && RootedAt(a.lead, y, i - 1);
    }
  }

  lemma SoundPrefix(lead: map<nat, Reign>, log: seq<Entry>, k: nat)
    requires Sound(lead, log) && k <= |log|
    ensures Sound(lead, log[..k])
  {
    forall i: nat | i < k ensures RootedAt(lead, log[..k], i) {
      assert RootedAt(lead, log, i);
      assert log[..k][..i + 1] == log[..i + 1];
    }
  }
}
