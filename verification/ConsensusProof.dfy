/** Each of the seven protocol steps keeps the invariant.

    A step changes one server and the reigns it leads (`Local`) and otherwise only adds to the
    history, so most of the invariant carries over unchanged; `Frame` says what is left to show.
    The two hard steps are granting a vote and winning an election: whatever a voter had
    acknowledged of an earlier reign is in the log the candidate stood with, or can never be
    committed, because a majority has left that term without it (`UpToDateKeeps`, `ElectHanded`).
    Adopting a leader's prefix drops only entries of which the same is true. */
module ConsensusProof {
  import opened Quorum
  import opened RaftLog
  import opened Consensus

  /** Only server `w` moved, and only reigns of its own changed or began. */
  ghost predicate Local(a: State, b: State, w: nat) {
    && |a.peers| == |b.peers| && w < |a.peers|
    && (forall v: nat | v < |a.peers| && v != w :: b.peers[v] == a.peers[v])
    && (forall t: nat | t in b.lead && b.lead[t].leader != w :: t in a.lead && b.lead[t] == a.lead[t])
  }

  // ---------------------------------------------------------------- what a step leaves alone

  lemma LeadKeeps(a: State, b: State, t: nat)
    requires Grows(a, b) && t in a.lead && t in b.lead && b.lead[t] == a.lead[t] && LeadOk(a, t)
    ensures LeadOk(b, t)
  {
    var r := a.lead[t];
    SoundGrows(a, b, r.log);
    assert PeerGrows(a.peers[r.leader], b.peers[r.leader]);
    forall v | v in r.voters ensures VotedFor(b, v, t, r.leader) {
      assert VotedFor(a, v, t, r.leader) && PeerGrows(a.peers[v], b.peers[v]);
    }
  }

  lemma CandKeeps(a: State, b: State, c: nat, t: nat)
    requires Grows(a, b) && c < |a.peers| && t in a.peers[c].cand && CandOk(a, c, t)
    ensures t in b.peers[c].cand && CandOk(b, c, t)
  {
    assert PeerGrows(a.peers[c], b.peers[c]);
    SoundGrows(a, b, a.peers[c].cand[t]);
  }

  /** An acknowledgement covers only entries that already existed. */
  lemma AckedExisted(a: State, b: State, v: nat, t: nat, k: nat)
    requires Grows(a, b) && v < |a.peers| && AckTrue(a, v, t)
    requires InReign(b.lead, t, k) && k <= Ack(a.peers[v], t)
    ensures InReign(a.lead, t, k)
  {
    assert ReignGrows(a.lead, b.lead, t);
  }

  lemma VoteKeeps(a: State, b: State, v: nat, t: nat)
    requires Inv(a) && Grows(a, b) && v < |a.peers| && t in a.peers[v].vote
    ensures t in b.peers[v].vote && VoteOk(b, v, t)
  {
    assert VoteOk(a, v, t) && PeerGrows(a.peers[v], b.peers[v]);
    var c := a.peers[v].vote[t];
    assert PeerGrows(a.peers[c], b.peers[c]);
    forall t0: nat, k: nat ensures VoteKept(b, v, t, t0, k) {
      if t0 < t && InReign(b.lead, t0, k) && k <= Ack(b.peers[v], t0) {
        assert AckOk(a, v) && AckTrue(a, v, t0);
        AckedExisted(a, b, v, t0, k);
        assert VoteKept(a, v, t, t0, k);
        KeptGrows(a, b, t0, k, a.peers[c].cand[t], b.peers[c].cand[t]);
      }
    }
  }

  lemma LogKeeps(a: State, b: State, v: nat)
    requires Grows(a, b) && v < |a.peers| && LogOk(a, v) && b.peers[v].log == a.peers[v].log
    ensures LogOk(b, v)
  {
    assert PeerGrows(a.peers[v], b.peers[v]);
    SoundGrows(a, b, a.peers[v].log);
  }

  lemma AckKeeps(a: State, b: State, v: nat)
    requires Grows(a, b) && v < |a.peers| && AckOk(a, v)
    requires b.peers[v].log == a.peers[v].log && b.peers[v].ack == a.peers[v].ack
    ensures AckOk(b, v)
  {
    assert PeerGrows(a.peers[v], b.peers[v]);
    forall t: nat ensures AckTrue(b, v, t) {
      assert AckTrue(a, v, t);
      assert ReignGrows(a.lead, b.lead, t);
    }
    forall t: nat, k: nat ensures AckKept(b, v, t, k) {
      if InReign(b.lead, t, k) && k <= Ack(b.peers[v], t) {
        assert AckTrue(a, v, t) && AckKept(a, v, t, k);
        AckedExisted(a, b, v, t, k);
        KeptGrows(a, b, t, k, a.peers[v].log, b.peers[v].log);
      }
    }
  }

  lemma CommitKeeps(a: State, b: State, v: nat)
    requires Grows(a, b) && v < |a.peers| && CommitOk(a, v)
    requires a.peers[v].commit <= |b.peers[v].log| && b.peers[v].commit == a.peers[v].commit
    requires b.peers[v].log[..a.peers[v].commit] == a.peers[v].log[..a.peers[v].commit]
    ensures CommitOk(b, v)
  {
    assert PeerGrows(a.peers[v], b.peers[v]);
    PrefixCommittedGrows(a, b, a.peers[v].log[..a.peers[v].commit], a.peers[v].term, b.peers[v].term);
  }

  /** Entries appended to a reign after a later one began can never be committed:
      the majority that elected the later leader has moved on. */
  lemma LateEntriesBlocked(a: State, b: State, t: nat, u: nat, k: nat)
    requires Inv(a) && Grows(a, b) && t < u && u in a.lead
    requires InReign(b.lead, t, k) && !InReign(a.lead, t, k)
    ensures Blocked(b, t, k)
  {
    assert LeadOk(a, u) && ReignGrows(a.lead, b.lead, t);
    var q := a.lead[u].voters;
    forall v | v in q ensures v in Blockers(b, t, k) {
      assert VotedFor(a, v, u, a.lead[u].leader);
      assert VoteOk(a, v, u) && AckOk(a, v) && AckTrue(a, v, t);
      assert PeerGrows(a.peers[v], b.peers[v]);
    }
    LargerIsMajority(q, Blockers(b, t, k), |b.peers|);
  }

  lemma HandedKeeps(a: State, b: State, t: nat, u: nat, k: nat)
    requires Inv(a) && Grows(a, b) && u in a.lead
    ensures Handed(b, t, u, k)
  {
    if t < u && u in b.lead && InReign(b.lead, t, k) {
      assert Handed(a, t, u, k) && ReignGrows(a.lead, b.lead, u);
      if InReign(a.lead, t, k) {
        KeptGrows(a, b, t, k, a.lead[u].log, b.lead[u].log);
      } else {
        LateEntriesBlocked(a, b, t, u, k);
      }
    }
  }

  /** A local step keeps the invariant as soon as everything it touched is in order. */
  lemma Frame(a: State, b: State, w: nat)
    requires Inv(a) && Grows(a, b) && Local(a, b, w)
    requires forall t: nat | t in b.lead && !(t in a.lead && a.lead[t] == b.lead[t]) :: LeadOk(b, t)
    requires forall t: nat | t in b.peers[w].cand && t !in a.peers[w].cand :: CandOk(b, w, t)
    requires forall t: nat | t in b.peers[w].vote && t !in a.peers[w].vote :: VoteOk(b, w, t)
    requires LogOk(b, w) && AckOk(b, w) && CommitOk(b, w)
    requires forall t: nat, u: nat, k: nat | u in b.lead && u !in a.lead :: Handed(b, t, u, k)
    ensures Inv(b)
  {
    forall t: nat | t in b.lead ensures LeadOk(b, t) {
      if t in a.lead && a.lead[t] == b.lead[t] {
        assert LeadOk(a, t);
        LeadKeeps(a, b, t);
      }
    }
    forall c: nat, t: nat | c < |b.peers| && t in b.peers[c].cand ensures CandOk(b, c, t) {
      if t in a.peers[c].cand {
        assert CandOk(a, c, t);
        CandKeeps(a, b, c, t);
      }
    }
    forall v: nat, t: nat | v < |b.peers| && t in b.peers[v].vote ensures VoteOk(b, v, t) {
      if t in a.peers[v].vote {
        VoteKeeps(a, b, v, t);
      }
    }
    forall v: nat | v < |b.peers| ensures LogOk(b, v) && AckOk(b, v) && CommitOk(b, v) {
      if v != w {
        assert LogOk(a, v) && AckOk(a, v) && CommitOk(a, v);
        LogKeeps(a, b, v);
        AckKeeps(a, b, v);
        CommitKeeps(a, b, v);
      }
    }
    forall t: nat, u: nat, k: nat ensures Handed(b, t, u, k) {
      if u in a.lead {
        HandedKeeps(a, b, t, u, k);
      }
    }
  }

  // ---------------------------------------------------------------- the seven steps

  lemma StandKeeps(a: State, c: nat)
    requires Inv(a) && c < |a.peers|
    ensures var b := Stand(a, c); Inv(b) && Grows(a, b) && Local(a, b, c)
  {
    var b := Stand(a, c);
    var p := a.peers[c];
    var t := p.term + 1;
    assert LogOk(a, c) && AckOk(a, c) && CommitOk(a, c);
    assert t in p.vote ==> VoteOk(a, c, t);
    assert t in p.cand ==> CandOk(a, c, t);
    assert PeerGrows(p, b.peers[c]);
    LogKeeps(a, b, c);
    AckKeeps(a, b, c);
    CommitKeeps(a, b, c);
    assert CandOk(b, c, t);
    forall t0: nat, k: nat ensures VoteKept(b, c, t, t0, k) {
      assert AckKept(b, c, t0, k);
    }
    Frame(a, b, c);
  }

  lemma BumpKeeps(a: State, v: nat, t: nat)
    requires Inv(a) && v < |a.peers| && a.peers[v].term < t
    ensures var b := BumpTerm(a, v, t); Inv(b) && Grows(a, b) && Local(a, b, v)
  {
    var b := BumpTerm(a, v, t);
    assert LogOk(a, v) && AckOk(a, v) && CommitOk(a, v);
    assert PeerGrows(a.peers[v], b.peers[v]);
    LogKeeps(a, b, v);
    AckKeeps(a, b, v);
    CommitKeeps(a, b, v);
    Frame(a, b, v);
  }

  /** The election restriction: a candidate at least as up to date as a voter holds whatever
      the voter holds of an earlier reign, unless that can no longer be committed. */
  lemma UpToDateKeeps(a: State, c: seq<Entry>, p: seq<Entry>, t: nat, k: nat)
    requires Inv(a) && Sound(a.lead, c) && Sound(a.lead, p) && UpToDate(c, p)
    requires InReign(a.lead, t, k) && Kept(a, t, k, p)
    ensures Kept(a, t, k, c)
  {
    if !Blocked(a, t, k) {
      assert p[k - 1] == a.lead[t].log[..k][k - 1];
      TermsOrdered(a, p, k - 1, |p| - 1);
      var u := LastTerm(c);
      assert RootedAt(a.lead, c, |c| - 1);
      assert c[..|c| - 1 + 1] == c;
      if u == LastTerm(p) {
        assert RootedAt(a.lead, p, |p| - 1);
        assert p[..|p| - 1 + 1] == p;
      } else {
        assert Handed(a, t, u, k);
        if |c| < k {
          assert c[|c| - 1] == a.lead[u].log[|c| - 1] == a.lead[t].log[|c| - 1];
          LeadTerms(a, t, |c| - 1);
        }
      }
    }
  }

  lemma GrantKeeps(a: State, v: nat, c: nat, t: nat)
    requires Inv(a) && CanGrant(a, v, c, t)
    ensures var b := Grant(a, v, c, t); Inv(b) && Grows(a, b) && Local(a, b, v)
  {
    var b := Grant(a, v, c, t);
    assert LogOk(a, v) && AckOk(a, v) && CommitOk(a, v) && CandOk(a, c, t);
    assert PeerGrows(a.peers[v], b.peers[v]);
    LogKeeps(a, b, v);
    AckKeeps(a, b, v);
    CommitKeeps(a, b, v);
    forall t0: nat, k: nat ensures VoteKept(b, v, t, t0, k) {
      if t0 < t && InReign(b.lead, t0, k) && k <= Ack(b.peers[v], t0) {
        assert AckKept(a, v, t0, k);
        UpToDateKeeps(a, a.peers[c].cand[t], a.peers[v].log, t0, k);
        KeptGrows(a, b, t0, k, a.peers[c].cand[t], a.peers[c].cand[t]);
      }
    }
    Frame(a, b, v);
  }

  /** A new leader received everything that may still have been committed before it. */
  lemma ElectHanded(a: State, c: nat, t: nat, q: set<nat>, t0: nat, k: nat)
    requires Inv(a) && CanElect(a, c, t, q) && t0 < t && InReign(a.lead, t0, k)
    ensures Kept(a, t0, k, a.peers[c].log)
  {
    if exists v :: v in q && k <= Ack(a.peers[v], t0) {
      var v :| v in q && k <= Ack(a.peers[v], t0);
      assert VotedFor(a, v, t, c);
      assert VoteOk(a, v, t) && VoteKept(a, v, t, t0, k);
    } else {
      forall v | v in q ensures v in Blockers(a, t0, k) {
        assert VotedFor(a, v, t, c);
        assert VoteOk(a, v, t);
      }
      LargerIsMajority(q, Blockers(a, t0, k), |a.peers|);
    }
  }

  lemma ElectGrows(a: State, c: nat, t: nat, q: set<nat>)
    requires Inv(a) && CanElect(a, c, t, q)
    ensures var b := Elect(a, c, t, q); Grows(a, b) && Local(a, b, c)
  {
    var b := Elect(a, c, t, q);
    assert AckOk(a, c) && AckTrue(a, c, t);
    assert PeerGrows(a.peers[c], b.peers[c]);
  }

  lemma ElectKeeps(a: State, c: nat, t: nat, q: set<nat>)
    requires Inv(a) && CanElect(a, c, t, q)
    ensures var b := Elect(a, c, t, q); Inv(b) && Grows(a, b) && Local(a, b, c)
  {
    var b := Elect(a, c, t, q);
    ElectGrows(a, c, t, q);
    assert LogOk(a, c) && AckOk(a, c) && CommitOk(a, c) && CandOk(a, c, t);
    LogKeeps(a, b, c);
    CommitKeeps(a, b, c);
    ElectLeadOk(a, c, t, q);
    ElectAckOk(a, c, t, q);
    forall t0: nat, u: nat, k: nat | u in b.lead && u !in a.lead ensures Handed(b, t0, u, k) {
      if t0 < u && InReign(b.lead, t0, k) {
        ElectHanded(a, c, t, q, t0, k);
        KeptGrows(a, b, t0, k, a.peers[c].log, b.lead[u].log);
      }
    }
    Frame(a, b, c);
  }

  lemma ElectLeadOk(a: State, c: nat, t: nat, q: set<nat>)
    requires Inv(a) && CanElect(a, c, t, q) && Grows(a, Elect(a, c, t, q))
    ensures LeadOk(Elect(a, c, t, q), t)
  {
    var b := Elect(a, c, t, q);
    assert CandOk(a, c, t);
    SoundGrows(a, b, a.peers[c].log);
    forall v | v in q ensures VotedFor(b, v, t, c) {
      assert VotedFor(a, v, t, c) && PeerGrows(a.peers[v], b.peers[v]);
    }
  }

  lemma ElectAckOk(a: State, c: nat, t: nat, q: set<nat>)
    requires Inv(a) && CanElect(a, c, t, q) && Grows(a, Elect(a, c, t, q))
    ensures AckOk(Elect(a, c, t, q), c)
  {
    var b := Elect(a, c, t, q);
    assert AckOk(a, c) && CandOk(a, c, t);
    forall s: nat ensures AckTrue(b, c, s) {
      assert AckTrue(a, c, s);
    }
    forall s: nat, k: nat ensures AckKept(b, c, s, k) {
      if InReign(b.lead, s, k) && k <= Ack(b.peers[c], s) && s != t {
        assert AckKept(a, c, s, k);
        KeptGrows(a, b, s, k, a.peers[c].log, b.peers[c].log);
      }
    }
  }

  lemma AppendGrows(a: State, c: nat, t: nat, e: Entry)
    requires Inv(a) && CanAppend(a, c, t, e)
    ensures var b := Append(a, c, t, e); Grows(a, b) && Local(a, b, c)
  {
    var b := Append(a, c, t, e);
    assert AckOk(a, c) && AckTrue(a, c, t);
    assert PeerGrows(a.peers[c], b.peers[c]);
  }

  lemma AppendLogOk(a: State, c: nat, t: nat, e: Entry)
    requires Inv(a) && CanAppend(a, c, t, e) && Grows(a, Append(a, c, t, e))
    ensures LogOk(Append(a, c, t, e), c) && LeadOk(Append(a, c, t, e), t)
  {
    var b := Append(a, c, t, e);
    var log := a.peers[c].log + [e];
    assert LogOk(a, c) && LeadOk(a, t);
    SoundGrows(a, b, a.peers[c].log);
    forall i: nat | i < |log| ensures RootedAt(b.lead, log, i) {
      if i < |log| - 1 {
        assert RootedAt(b.lead, a.peers[c].log, i);
        assert log[..i + 1] == a.peers[c].log[..i + 1];
      }
    }
    forall v | v in b.lead[t].voters ensures VotedFor(b, v, t, c) {
      assert VotedFor(a, v, t, c) && PeerGrows(a.peers[v], b.peers[v]);
    }
  }

  lemma AppendAckOk(a: State, c: nat, t: nat, e: Entry)
    requires Inv(a) && CanAppend(a, c, t, e) && Grows(a, Append(a, c, t, e))
    ensures AckOk(Append(a, c, t, e), c)
  {
    var b := Append(a, c, t, e);
    assert AckOk(a, c);
    forall s: nat ensures AckTrue(b, c, s) {
      assert AckTrue(a, c, s);
    }
    forall s: nat, k: nat ensures AckKept(b, c, s, k) {
      if InReign(b.lead, s, k) && k <= Ack(b.peers[c], s) && s != t {
        assert AckKept(a, c, s, k);
        KeptGrows(a, b, s, k, a.peers[c].log, b.peers[c].log);
      }
    }
  }

  lemma AppendKeeps(a: State, c: nat, t: nat, e: Entry)
    requires Inv(a) && CanAppend(a, c, t, e)
    ensures var b := Append(a, c, t, e); Inv(b) && Grows(a, b) && Local(a, b, c)
  {
    var b := Append(a, c, t, e);
    AppendGrows(a, c, t, e);
    AppendLogOk(a, c, t, e);
    AppendAckOk(a, c, t, e);
    assert CommitOk(a, c);
    CommitKeeps(a, b, c);
    Frame(a, b, c);
  }

  lemma AdoptGrows(a: State, v: nat, t: nat, m: nat)
    requires Inv(a) && CanAdopt(a, v, t, m)
    ensures var b := Adopt(a, v, t, m); Grows(a, b) && Local(a, b, v)
  {
    var b := Adopt(a, v, t, m);
    assert PeerGrows(a.peers[v], b.peers[v]);
  }

  /** Two logs that share the leader's first `k` entries still do after one adopts the
      leader's first `m`. */
  lemma AdoptedKeepsPrefix(log: seq<Entry>, lead: seq<Entry>, m: nat, k: nat)
    requires m <= |lead| && k <= |lead| && lead[..k] <= log
    ensures lead[..k] <= Adopted(log, lead[..m])
  {
    if m < k {
      assert lead[..m] <= lead[..k];
    }
  }

  lemma AdoptLogOk(a: State, v: nat, t: nat, m: nat)
    requires Inv(a) && CanAdopt(a, v, t, m)
    ensures LogOk(Adopt(a, v, t, m), v)
  {
    assert LogOk(a, v) && LeadOk(a, t);
    SoundPrefix(a.lead, a.lead[t].log, m);
    forall i: nat | i < m ensures a.lead[t].log[..m][i].term <= t {
      LeadTerms(a, t, i);
    }
  }

  lemma AdoptAckOk(a: State, v: nat, t: nat, m: nat)
    requires Inv(a) && CanAdopt(a, v, t, m) && Grows(a, Adopt(a, v, t, m))
    ensures AckOk(Adopt(a, v, t, m), v)
  {
    var b := Adopt(a, v, t, m);
    var p := a.peers[v];
    var top := a.lead[t].log;
    assert AckOk(a, v) && AckTrue(a, v, t);
    AdoptedKeepsPrefix(p.log, top, m, Ack(p, t));
    forall s: nat ensures AckTrue(b, v, s) {
      assert AckTrue(a, v, s);
    }
    forall s: nat, k: nat ensures AckKept(b, v, s, k) {
      if InReign(b.lead, s, k) && k <= Ack(b.peers[v], s) {
        assert AckTrue(b, v, s) && AckTrue(a, v, s);
        if s != t {
          AdoptOlderKept(a, v, t, m, s, k);
        }
      }
    }
  }

  /** Adopting the log of a later leader loses nothing that may be committed. */
  lemma AdoptOlderKept(a: State, v: nat, t: nat, m: nat, s: nat, k: nat)
    requires Inv(a) && CanAdopt(a, v, t, m) && Grows(a, Adopt(a, v, t, m))
    requires s < t && InReign(a.lead, s, k) && k <= Ack(a.peers[v], s)
    ensures Kept(Adopt(a, v, t, m), s, k, Adopt(a, v, t, m).peers[v].log)
  {
    var b := Adopt(a, v, t, m);
    assert AckOk(a, v) && AckKept(a, v, s, k) && Handed(a, s, t, k);
    if Blocked(a, s, k) {
      BlockedGrows(a, b, s, k);
    } else {
      assert a.lead[t].log[..k] == a.lead[s].log[..k];
      AdoptedKeepsPrefix(a.peers[v].log, a.lead[t].log, m, k);
    }
  }

  lemma AdoptCommitOk(a: State, v: nat, t: nat, m: nat)
    requires Inv(a) && CanAdopt(a, v, t, m) && Grows(a, Adopt(a, v, t, m))
    ensures CommitOk(Adopt(a, v, t, m), v)
    ensures a.peers[v].commit <= |a.peers[v].log|
    ensures a.peers[v].log[..a.peers[v].commit] <= Adopt(a, v, t, m).peers[v].log
  {
    var b := Adopt(a, v, t, m);
    var p := a.peers[v];
    assert CommitOk(a, v);
    CommittedInLead(a, p.log[..p.commit], p.term, t);
    assert p.log[..p.commit] == a.lead[t].log[..p.commit];
    AdoptedKeepsPrefix(p.log, a.lead[t].log, m, p.commit);
    CommitKeeps(a, b, v);
  }

  lemma AdoptKeeps(a: State, v: nat, t: nat, m: nat)
    requires Inv(a) && CanAdopt(a, v, t, m)
    ensures var b := Adopt(a, v, t, m); Inv(b) && Grows(a, b) && Local(a, b, v)
  {
    var b := Adopt(a, v, t, m);
    AdoptGrows(a, v, t, m);
    AdoptLogOk(a, v, t, m);
    AdoptAckOk(a, v, t, m);
    AdoptCommitOk(a, v, t, m);
    Frame(a, b, v);
  }

  lemma AdvanceKeeps(a: State, v: nat, c: nat)
    requires Inv(a) && CanAdvance(a, v, c)
    ensures var b := Advance(a, v, c); Inv(b) && Grows(a, b) && Local(a, b, v)
  {
    var b := Advance(a, v, c);
    assert LogOk(a, v) && AckOk(a, v);
    assert PeerGrows(a.peers[v], b.peers[v]);
    LogKeeps(a, b, v);
    AckKeeps(a, b, v);
    PrefixCommittedGrows(a, b, a.peers[v].log[..c], a.peers[v].term, a.peers[v].term);
    Frame(a, b, v);
  }
}
