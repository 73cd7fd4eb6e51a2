/** Every job can be finished: one worker that never fails brings the coordinator to its exit
    phase, so that the end-to-end statement about that phase is about something.

    The worker asks for work, renames the buckets of one map after the other and reports each;
    then it is given the reduces in turn, reads all intermediate files of its bucket, sorts what
    it has read, renames the output and reports. When it asks once more it is told to exit. That
    the pairs can be sorted at all is shown by insertion: the order of keys is total and
    transitive. Each stage is a predicate on the coordinator: so many entries are completed, the
    others idle, and the one worker is free. */
module MrFinish {
  import opened MapReduce
  import opened MrCoordinator
  import opened MrJob

  // ---------------------------------------------------------------- some sort exists

  lemma {:induction false} LexTotal(a: string, b: string)
    ensures LexLe(a, b) || LexLe(b, a)
    decreases |a|
  {
    if a != "" && b != "" && a[0] == b[0] {
      LexTotal(a[1..], b[1..]);
    }
  }

  lemma {:induction false} LexTransitive(a: string, b: string, c: string)
    requires LexLe(a, b) && LexLe(b, c)
    ensures LexLe(a, c)
    decreases |a|
  {
    if a != "" && a[0] == b[0] && b[0] == c[0] {
      LexTransitive(a[1..], b[1..], c[1..]);
    }
  }

  lemma {:induction false} Insert(x: KeyValue, kva: seq<KeyValue>) returns (r: seq<KeyValue>)
    requires SortedByKey(kva)
    ensures IsSortOf(r, [x] + kva)
    decreases |kva|
  {
    if kva == [] {
      r := [x];
      assert [x] + kva == [x];
    } else {
      LexTotal(x.key, kva[0].key);
      if LexLe(x.key, kva[0].key) {
        r := [x] + kva;
        forall i, j | 0 <= i < j < |r| ensures LexLe(r[i].key, r[j].key) {
          if i == 0 && j > 1 {
            LexTransitive(x.key, kva[0].key, kva[j - 1].key);
          }
        }
      } else {
        var rest := Insert(x, kva[1..]);
        r := [kva[0]] + rest;
        SmallerThanAll(kva, x, rest);
        assert kva == [kva[0]] + kva[1..];
      }
    }
  }

  lemma SmallerThanAll(kva: seq<KeyValue>, x: KeyValue, rest: seq<KeyValue>)
    requires kva != [] && SortedByKey(kva) && LexLe(kva[0].key, x.key) && multiset(rest) == multiset([x] + kva[1..])
    ensures forall i | 0 <= i < |rest| :: LexLe(kva[0].key, rest[i].key)
  {
    forall i | 0 <= i < |rest| ensures LexLe(kva[0].key, rest[i].key) {
      assert rest[i] in multiset(rest);
      assert rest[i] in [x] + kva[1..];
    }
  }

  lemma {:induction false} SortExists(kva: seq<KeyValue>) returns (r: seq<KeyValue>)
    ensures IsSortOf(r, kva)
  {
    if kva == [] {
      r := [];
    } else {
      var rest := SortExists(kva[1..]);
      r := Insert(kva[0], rest);
      assert kva == [kva[0]] + kva[1..];
    }
  }

  // ---------------------------------------------------------------- one worker

  ghost predicate Reaches(job: Job, s: State) {
    exists run :: Run(job, run) && run[|run| - 1] == s
  }

  lemma Extend(job: Job, s: State, e: Event)
    requires Reaches(job, s) && Enabled(job, s, e)
    ensures Reaches(job, Step(job, s, e))
  {
    hide Enabled, Step, Init;
    var run :| Run(job, run) && run[|run| - 1] == s;
    var more := run + [Step(job, s, e)];
    forall i | 0 < i < |more| ensures Next(job, more[i - 1], more[i]) {
      assert i < |run| ==> Next(job, run[i - 1], run[i]);
    }
    assert Run(job, more);
  }

  /** The first `k` are completed, the others idle. */
  predicate DoneUpTo(tasks: seq<Task>, k: nat) {
    forall i | 0 <= i < |tasks| :: tasks[i].state == (if i < k then Completed else Idle)
  }

  ghost predicate Mapped(job: Job, s: State, k: nat) {
    && s.workers == [Free] && s.coordinator.phase == MapPhase
    && |s.coordinator.mapTasks| == |job.files| && DoneUpTo(s.coordinator.mapTasks, k)
    && |s.coordinator.reduceTasks| == job.nReduce && DoneUpTo(s.coordinator.reduceTasks, 0)
  }

  lemma {:induction false} Buckets(job: Job, s: State, m: nat, k: nat) returns (t: State)
    requires Reaches(job, s) && s.workers == [Mapping(m, 0)] && m < |job.files| && k <= job.nReduce && job.nReduce > 0
    ensures Reaches(job, t) && t.workers == [Mapping(m, k)] && t.coordinator == s.coordinator
    decreases k
  {
    hide Reaches;
    if k == 0 {
      t := s;
    } else {
      t := Buckets(job, s, m, k - 1);
      Extend(job, t, RenameBucket(0));
      t := Step(job, t, RenameBucket(0));
    }
  }

  lemma FirstIs(tasks: seq<Task>, k: nat, i: nat)
    requires DoneUpTo(tasks, k) && i <= k <= |tasks|
    ensures FirstIdle(tasks, i) == k
    decreases k - i
  {
  }

  lemma MapOne(job: Job, s: State, m: nat) returns (t: State)
    requires Reaches(job, s) && Mapped(job, s, m) && m < |job.files| && job.nReduce > 0
    ensures Reaches(job, t) && Mapped(job, t, m + 1)
  {
    hide Reaches;
    FirstIs(s.coordinator.mapTasks, m, 0);
    Extend(job, s, Ask(0, 0, true));
    t := Step(job, s, Ask(0, 0, true));
    t := Buckets(job, t, m, job.nReduce);
    Extend(job, t, Finish(0, true));
    t := Step(job, t, Finish(0, true));
  }

  lemma {:induction false} MapAll(job: Job, m: nat) returns (t: State)
    requires m <= |job.files| && job.nReduce > 0
    ensures Reaches(job, t) && Mapped(job, t, m)
    decreases m
  {
    if m == 0 {
      var s := State(Make(job.files, job.nReduce), [], map[], map[]);
      assert Run(job, [s]) && [s][0] == s;
      Extend(job, s, Join);
      t := Step(job, s, Join);
    } else {
      t := MapAll(job, m - 1);
      t := MapOne(job, t, m - 1);
    }
  }

  ghost predicate Reduced(job: Job, s: State, k: nat) {
    && s.workers == [Free] && s.coordinator.phase != ExitPhase && (s.coordinator.phase == MapPhase ==> k == 0)
    && |s.coordinator.mapTasks| == |job.files| && AllCompleted(s.coordinator.mapTasks)
    && |s.coordinator.reduceTasks| == job.nReduce && DoneUpTo(s.coordinator.reduceTasks, k)
  }

  lemma {:induction false} Gather(job: Job, s: State, r: nat, k: nat) returns (t: State)
    requires Reaches(job, s) && s.workers == [Reducing(r, 0, [])] && k <= |job.files|
    ensures Reaches(job, t) && |t.workers| == 1 && t.workers[0].Reducing? && t.coordinator == s.coordinator
    ensures t.workers[0].task == r && t.workers[0].read == k
    decreases k
  {
    hide Reaches;
    if k == 0 {
      t := s;
    } else {
      t := Gather(job, s, r, k - 1);
      Extend(job, t, ReadBucket(0));
      t := Step(job, t, ReadBucket(0));
    }
  }

  lemma ReduceOne(job: Job, s: State, r: nat) returns (t: State)
    requires Reaches(job, s) && Reduced(job, s, r) && r < job.nReduce
    ensures Reaches(job, t) && Reduced(job, t, r + 1)
  {
    hide Reaches, IsSortOf, Lines;
    FirstIs(s.coordinator.reduceTasks, r, 0);
    Extend(job, s, Ask(0, 0, true));
    t := Step(job, s, Ask(0, 0, true));
    t := Gather(job, t, r, |job.files|);
    var sorted := SortExists(t.workers[0].kva);
    Extend(job, t, RenameOutput(0, sorted));
    t := Step(job, t, RenameOutput(0, sorted));
    Extend(job, t, Finish(0, true));
    t := Step(job, t, Finish(0, true));
  }

  lemma {:induction false} ReduceAll(job: Job, r: nat) returns (t: State)
    requires r <= job.nReduce && job.nReduce > 0
    ensures Reaches(job, t) && Reduced(job, t, r)
    decreases r
  {
    hide Reaches;
    if r == 0 {
      t := MapAll(job, |job.files|);
    } else {
      t := ReduceAll(job, r - 1);
      t := ReduceOne(job, t, r - 1);
    }
  }

  /** For every job some run reaches the exit phase. */
  lemma JobCanFinish(job: Job) returns (run: seq<State>)
    requires job.nReduce > 0
    ensures Run(job, run) && run[|run| - 1].coordinator.phase == ExitPhase
  {
    var s := ReduceAll(job, job.nReduce);
    FirstIs(s.coordinator.reduceTasks, job.nReduce, 0);
    Extend(job, s, Ask(0, 0, true));
    run :| Run(job, run) && run[|run| - 1] == Step(job, s, Ask(0, 0, true));
  }
}
