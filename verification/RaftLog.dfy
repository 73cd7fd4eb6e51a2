/** Log entries, and the correspondence between a full log and its compacted form. */
module RaftLog {
  import opened KvStore

  /** What a client of Raft asks to replicate: an operation of the replicated store,
      any other value, or nothing (the sentinel at the bottom of a log). */
  datatype Command = Nothing | Raw(value: int) | Do(id: int, term: nat, request: Request)

  datatype Entry = Entry(command: Command, term: nat)

  function Higher(a: nat, b: nat): nat {
    if a < b then b else a
  }

  /** Term of the entry at one-based index `i`; index 0 lies below the log and has term 0. */
  function TermAt(log: seq<Entry>, i: nat): nat
    requires i <= |log|
  {
    if i == 0 then 0 else log[i - 1].term
  }

  function LastTerm(log: seq<Entry>): nat {
    TermAt(log, |log|)
  }

  /** The compacted form of a full log: a sentinel that carries the term of the last
      dropped entry, then everything above `base`. */
  function Trim(log: seq<Entry>, base: nat): seq<Entry>
    requires base <= |log|
  {
    [Entry(Nothing, TermAt(log, base))] + log[base..]
  }

  /** The effect of one command, and of a log, on the replicated store. */
  function ApplyOne(store: Store, c: Command): Store {
    if c.Do? then Execute(store, c.request).0 else store
  }

  function Replay(store: Store, log: seq<Entry>): Store {
    if log == [] then store else ApplyOne(Replay(store, log[..|log| - 1]), log[|log| - 1].command)
  }

  lemma {:induction false} ReplaySplit(store: Store, a: seq<Entry>, b: seq<Entry>)
    ensures Replay(store, a + b) == Replay(Replay(store, a), b)
    decreases |b|
  {
    if b == [] {
      assert a + b == a;
    } else {
      var c := b[..|b| - 1];
      ReplaySplit(store, a, c);
      assert (a + b)[..|a + b| - 1] == a + c;
    }
  }
}
