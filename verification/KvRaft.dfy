/** Attempts of Puts in a log: a clerk retries with other servers, and each attempt that was
    started may be committed. */
module KvRaft {
  import opened KvStore
  import opened RaftLog
  import opened Rsm

  predicate IsPut(e: Entry, key: string, version: nat) {
    e.command.Do? && e.command.request.Put? && e.command.request.key == key && e.command.request.version == version
  }

  /** The entry at `i` is a Put that succeeds when the log is replayed. */
  predicate Succeeds(log: seq<Entry>, i: nat) {
    && i < |log| && log[i].command.Do? && log[i].command.request.Put?
    && ReplyAt(log, i + 1) == PutReply(OK)
  }

  function VersionAt(log: seq<Entry>, i: nat, key: string): nat
    requires i <= |log|
  {
    var store := Replay(map[], log[..i]);
    if key in store then store[key].version else 0
  }

  lemma {:induction false} VersionsGrow(log: seq<Entry>, i: nat, j: nat, key: string)
    requires i <= j <= |log|
    ensures VersionAt(log, i, key) <= VersionAt(log, j, key)
    ensures key in Replay(map[], log[..i]) ==> key in Replay(map[], log[..j])
    decreases j - i
  {
    if i < j {
      VersionsGrow(log, i, j - 1, key);
      assert log[..j][..j - 1] == log[..j - 1];
    }
  }

  /** Of all the Puts of one key and version in a log, at most one succeeds. */
  lemma AtMostOneSucceeds(log: seq<Entry>, i: nat, j: nat, key: string, version: nat)
    requires i < j < |log| && IsPut(log[i], key, version) && IsPut(log[j], key, version)
    ensures !(Succeeds(log, i) && Succeeds(log, j))
  {
    assert log[..i + 1][..i] == log[..i];
    VersionsGrow(log, i + 1, j, key);
  }

  /** The positions of a log at which attempts of one Put were committed and succeeded. */
  ghost function Winners(log: seq<Entry>, attempts: set<nat>): set<nat> {
    set i | i in attempts && Succeeds(log, i)
  }

  /** All attempts of one clerk Put that are in the log; the clerk was answered at `at`. */
  ghost predicate Attempts(log: seq<Entry>, attempts: set<nat>, at: nat, first: bool, key: string, version: nat) {
    && (forall i | i in attempts :: i < |log| && IsPut(log[i], key, version))
    && at in attempts
    && (first ==> attempts == {at})
  }

  lemma WinnersAtMostOne(log: seq<Entry>, attempts: set<nat>, key: string, version: nat)
    requires forall i | i in attempts :: i < |log| && IsPut(log[i], key, version)
    ensures |Winners(log, attempts)| <= 1
  {
    var w := Winners(log, attempts);
    if w != {} {
      var i :| i in w;
      forall j | j in w ensures j == i {
        if i < j { AtMostOneSucceeds(log, i, j, key, version); }
        if j < i { AtMostOneSucceeds(log, j, i, key, version); }
      }
      assert w == {i};
    }
  }

  /** Whatever is committed when, OK means exactly one attempt took effect, ErrVersion means
      none, and ErrMaybe at most one. ErrNoKey means that none has by the time of the answer:
      a winner comes later in the log, and only if there were other attempts. */
  lemma PutOutcomes(log: seq<Entry>, attempts: set<nat>, at: nat, first: bool, key: string, version: nat)
    requires Attempts(log, attempts, at, first, key, version)
    ensures var r := ReplyAt(log, at + 1);
      && r.PutReply?
      && |Winners(log, attempts)| <= 1
      && match ClerkResult(first, r).err
         case OK => Winners(log, attempts) == {at}
         case ErrVersion => Winners(log, attempts) == {}
         case ErrNoKey => forall i | i in Winners(log, attempts) :: i > at && !first
         case ErrMaybe => !first && at !in Winners(log, attempts)
         case ErrWrongLeader => false
  {
    WinnersAtMostOne(log, attempts, key, version);
    var r := ReplyAt(log, at + 1);
    if r.err == OK {
      assert at in Winners(log, attempts);
      forall i | i in Winners(log, attempts) ensures i == at {
        if i < at { AtMostOneSucceeds(log, i, at, key, version); }
        if at < i { AtMostOneSucceeds(log, at, i, key, version); }
      }
    }
    if r.err == ErrNoKey {
      forall i | i in Winners(log, attempts) ensures i > at {
        if i < at {
          SuccessStays(log, i, at);
        }
      }
    }
  }

  /** What a successful Put created is there ever after. */
  lemma SuccessStays(log: seq<Entry>, i: nat, j: nat)
    requires i < j <= |log| && Succeeds(log, i)
    ensures log[i].command.request.key in Replay(map[], log[..j])
  {
    assert log[..i + 1][..i] == log[..i];
    VersionsGrow(log, i + 1, j, log[i].command.request.key);
  }

  /** Puts that bring a fresh key to a version. */
  function Climb(key: string, version: nat): seq<Entry> {
    if version == 0 then [] else Climb(key, version - 1) + [Entry(Do(version + 2, 1, Put(key, "", version - 1)), 1)]
  }

  lemma {:induction false} ClimbReaches(store: Store, key: string, version: nat)
    requires key !in store
    ensures var s := Replay(store, Climb(key, version));
      if version == 0 then key !in s else key in s && s[key].version == version
  {
    if version > 0 {
      ClimbReaches(store, key, version - 1);
      var c := Climb(key, version);
      assert c[..|c| - 1] == Climb(key, version - 1);
    }
  }

  /** A retry, then the Puts of others that bring the key to the retry's version, then the
      attempt that the clerk had made first. */
  function LateLog(key: string, value: string, version: nat): seq<Entry> {
    [Entry(Do(2, 1, Put(key, value, version)), 1)] + Climb(key, version) + [Entry(Do(1, 1, Put(key, value, version)), 1)]
  }

  lemma {:induction false} ClimbLength(key: string, version: nat)
    ensures |Climb(key, version)| == version
    ensures forall e | e in Climb(key, version) :: e.term == 1 && e.command.Do? && e.command.id > 2
  {
    if version > 0 {
      ClimbLength(key, version - 1);
    }
  }

  /** In such a log the retry is answered ErrNoKey, and the other attempt takes effect. */
  lemma LateAttempt(key: string, value: string, version: nat)
    requires version > 0
    ensures var log := LateLog(key, value, version);
      && |log| == version + 2 && log[0].command == Do(2, 1, Put(key, value, version))
      && log[version + 1].command == Do(1, 1, Put(key, value, version))
      && ReplyAt(log, 1) == PutReply(ErrNoKey) && Winners(log, {0, version + 1}) == {version + 1}
      && var s := Replay(map[], log); key in s && s[key] == Item(value, version + 1)
  {
    var log, climb, n := LateLog(key, value, version), Climb(key, version), version + 1;
    ClimbLength(key, version);
    assert log[..0] == [] && log[..n] == [log[0]] + climb && log[..n + 1] == log;
    assert Replay(map[], [log[0]]) == map[] by { assert [log[0]][..0] == []; }
    ReplaySplit(map[], [log[0]], climb);
    ClimbReaches(map[], key, version);
  }
}
