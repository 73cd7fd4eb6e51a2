/** A whole MapReduce job: the coordinator, any number of workers that may crash, stall or
    repeat work, and the files they leave behind. */
module MrJob {
  import opened MapReduce
  import opened MrCoordinator

  /** What is computed: the input files with their contents, the number of output files,
      the two user functions and the hash that spreads keys. */
  datatype Job = Job(files: seq<string>, contents: string -> string, nReduce: nat,
                     mapf: MapFn, reducef: ReduceFn, hash: string -> nat)

  /** Pairs whose key belongs to output file `r` of `n`. */
  function Bucket(kva: seq<KeyValue>, hash: string -> nat, n: nat, r: nat): seq<KeyValue>
    requires n > 0
  {
    if kva == [] then []
    else
      var rest := Bucket(kva[..|kva| - 1], hash, n, r);
      if hash(kva[|kva| - 1].key) % n == r then rest + [kva[|kva| - 1]] else rest
  }

  function MapOutput(job: Job, m: nat): seq<KeyValue>
    requires m < |job.files|
  {
    job.mapf(job.files[m], job.contents(job.files[m]))
  }

  function Intermediate(job: Job, m: nat, r: nat): seq<KeyValue>
    requires m < |job.files| && job.nReduce > 0
  {
    Bucket(MapOutput(job, m), job.hash, job.nReduce, r)
  }

  /** What a reducer has collected after reading the first `m` intermediate files. */
  function Gathered(job: Job, r: nat, m: nat): seq<KeyValue>
    requires m <= |job.files| && job.nReduce > 0
  {
    if m == 0 then [] else Gathered(job, r, m - 1) + Intermediate(job, m - 1, r)
  }

  /** The input of the sequential program. */
  function AllPairs(job: Job, m: nat): seq<KeyValue>
    requires m <= |job.files|
  {
    if m == 0 then [] else AllPairs(job, m - 1) + MapOutput(job, m - 1)
  }

  // ---------------------------------------------------------------- the programs

  /** The bucket loop of a map worker. */
  method FillBuckets(kva: seq<KeyValue>, hash: string -> nat, n: nat) returns (buckets: seq<seq<KeyValue>>)
    requires n > 0
    ensures |buckets| == n && forall r | 0 <= r < n :: buckets[r] == Bucket(kva, hash, n, r)
  {
    buckets := seq(n, _ => []);
    for i := 0 to |kva|
      invariant |buckets| == n && forall r | 0 <= r < n :: buckets[r] == Bucket(kva[..i], hash, n, r)
    {
      assert kva[..i + 1][..i] == kva[..i];
      var idx := hash(kva[i].key) % n;
      buckets := buckets[idx := buckets[idx] + [kva[i]]];
    }
    assert kva[..|kva|] == kva;
  }

  /** The sequential program, given what its sort produced. */
  method Sequential(job: Job, sorted: seq<KeyValue>) returns (intermediate: seq<KeyValue>, lines: seq<string>)
    ensures intermediate == AllPairs(job, |job.files|)
    ensures lines == Lines(sorted, job.reducef)
    ensures IsSortOf(sorted, intermediate) && OrderInsensitive(job.reducef) ==>
      multiset(lines) == KeyLines(Keys(intermediate), intermediate, job.reducef)
  {
    intermediate := [];
    for m := 0 to |job.files|
      invariant intermediate == AllPairs(job, m)
    {
      var kva := job.mapf(job.files[m], job.contents(job.files[m]));
      intermediate := intermediate + kva;
    }
    lines := ReduceGroups(sorted, job.reducef);
    if IsSortOf(sorted, intermediate) && OrderInsensitive(job.reducef) {
      SortedLines(sorted, intermediate, job.reducef);
    }
  }

  // ---------------------------------------------------------------- the distributed run

  datatype Worker =
    | Free
    | Mapping(task: nat, done: nat)                          // `done` buckets are renamed into place
    | Reducing(task: nat, read: nat, kva: seq<KeyValue>)     // `read` intermediate files are read
    | Wrote(task: nat)                                       // the output file is renamed into place
    | Gone

  /** Renames are atomic: a file is absent or complete. */
  datatype State = State(
    coordinator: Coordinator,
    workers: seq<Worker>,
    inter: map<(nat, nat), seq<KeyValue>>,
    out: map<nat, seq<string>>)

  datatype Event =
    | Join                                          // a new worker process
    | Ask(w: nat, now: int, delivered: bool)
    | RenameBucket(w: nat)
    | ReadBucket(w: nat)
    | RenameOutput(w: nat, sorted: seq<KeyValue>)
    | Finish(w: nat, delivered: bool)
    | Timer(now: int)

  predicate Assigned(job: Job, w: Worker) {
    match w
    case Free => true
    case Mapping(i, k) => i < |job.files| && k <= job.nReduce
    case Reducing(i, k, _) => i < job.nReduce && k <= |job.files|
    case Wrote(i) => i < job.nReduce
    case Gone => true
  }

  ghost predicate Enabled(job: Job, s: State, e: Event) {
    match e
    case Join => true
    case Ask(w, _, _) => w < |s.workers| && s.workers[w] == Free
    case RenameBucket(w) =>
      w < |s.workers| && s.workers[w].Mapping? && s.workers[w].task < |job.files| && s.workers[w].done < job.nReduce
    case ReadBucket(w) => w < |s.workers| && s.workers[w].Reducing? && s.workers[w].read < |job.files|
    case RenameOutput(w, sorted) =>
      && w < |s.workers| && s.workers[w].Reducing? && s.workers[w].read == |job.files|
      && IsSortOf(sorted, s.workers[w].kva)
    case Finish(w, _) =>
      && w < |s.workers|
      && (|| (s.workers[w].Mapping? && s.workers[w].done == job.nReduce && s.workers[w].task < |s.coordinator.mapTasks|)
          || (s.workers[w].Wrote? && s.workers[w].task < |s.coordinator.reduceTasks|))
    case Timer(_) => true
  }

  function Set(s: State, w: nat, x: Worker): State
    requires w < |s.workers|
  {
    s.(workers := s.workers[w := x])
  }

  function Begun(a: Assignment): Worker {
    match a
    case MapTask(i, _) => Mapping(i, 0)
    case ReduceTask(i) => Reducing(i, 0, [])
    case WaitTask => Free
    case ExitTask => Gone
  }

  ghost function Step(job: Job, s: State, e: Event): State
    requires Enabled(job, s, e)
  {
    match e
    case Join => s.(workers := s.workers + [Free])
    case Ask(w, now, delivered) =>
      var (c, a) := GetTask(s.coordinator, now);
      Set(s.(coordinator := c), w, if delivered then Begun(a) else Gone)
    case RenameBucket(w) =>
      var x := s.workers[w];
      Set(s.(inter := s.inter[(x.task, x.done) := Intermediate(job, x.task, x.done)]), w, Mapping(x.task, x.done + 1))
    case ReadBucket(w) =>
      var x := s.workers[w];
      var file := if (x.read, x.task) in s.inter then s.inter[(x.read, x.task)] else [];
      Set(s, w, Reducing(x.task, x.read + 1, x.kva + file))
    case RenameOutput(w, sorted) =>
      var x := s.workers[w];
      Set(s.(out := s.out[x.task := Lines(sorted, job.reducef)]), w, Wrote(x.task))
    case Finish(w, delivered) =>
      var x := s.workers[w];
      var c := if !delivered then s.coordinator
               else if x.Mapping? then FinishedMap(s.coordinator, x.task)
               else FinishedReduce(s.coordinator, x.task);
      Set(s.(coordinator := c), w, Free)
    case Timer(now) => s.(coordinator := CheckTimeouts(s.coordinator, now))
  }

  ghost predicate Init(job: Job, s: State) {
    s == State(Make(job.files, job.nReduce), [], map[], map[])
  }

  ghost predicate Next(job: Job, s: State, s': State) {
    exists e :: Enabled(job, s, e) && s' == Step(job, s, e)
  }

  ghost predicate Run(job: Job, run: seq<State>) {
    && |run| > 0 && Init(job, run[0])
    && forall i | 0 < i < |run| :: Next(job, run[i - 1], run[i])
  }

  // ---------------------------------------------------------------- invariant

  ghost predicate MapDone(job: Job, s: State, m: nat, k: nat) {
    forall r: nat | r < k :: (m, r) in s.inter
  }

  ghost predicate OutputOk(job: Job, r: nat, lines: seq<string>)
    requires job.nReduce > 0
  {
    exists sorted :: IsSortOf(sorted, Gathered(job, r, |job.files|)) && lines == Lines(sorted, job.reducef)
  }

  ghost predicate WorkerOk(job: Job, s: State, x: Worker)
    requires job.nReduce > 0
  {
    && Assigned(job, x)
    && (x.Mapping? ==> MapDone(job, s, x.task, x.done))
    && (x.Reducing? ==> s.coordinator.phase != MapPhase && x.kva == Gathered(job, x.task, x.read))
    && (x.Wrote? ==> x.task in s.out)
  }

  ghost predicate CoordinatorOk(job: Job, s: State) {
    var c := s.coordinator;
    && |c.mapTasks| == |job.files| && |c.reduceTasks| == job.nReduce
    && (forall m: nat | m < |c.mapTasks| && c.mapTasks[m].state == Completed :: MapDone(job, s, m, job.nReduce))
    && (forall r: nat | r < |c.reduceTasks| && c.reduceTasks[r].state == Completed :: r in s.out)
    && (c.phase != MapPhase ==> AllCompleted(c.mapTasks))
    && (c.phase == ExitPhase ==> AllCompleted(c.reduceTasks))
  }

  ghost predicate FilesOk(job: Job, s: State)
    requires job.nReduce > 0
  {
    && (forall m: nat, r: nat | (m, r) in s.inter :: m < |job.files| && s.inter[(m, r)] == Intermediate(job, m, r))
    && (forall r: nat | r in s.out :: OutputOk(job, r, s.out[r]))
  }

  ghost predicate Inv(job: Job, s: State)
    requires job.nReduce > 0
  {
    && FilesOk(job, s) && CoordinatorOk(job, s)
    && (forall w | 0 <= w < |s.workers| :: WorkerOk(job, s, s.workers[w]))
  }

  /** Files only appear; the phase never goes back. */
  ghost predicate Later(s: State, s': State) {
    && s.inter.Keys <= s'.inter.Keys && s.out.Keys <= s'.out.Keys
    && (s.coordinator.phase != MapPhase ==> s'.coordinator.phase != MapPhase)
  }

  lemma WorkersKeep(job: Job, s: State, s': State, w: nat)
    requires job.nReduce > 0 && Later(s, s') && |s'.workers| == |s.workers|
    requires forall v | 0 <= v < |s.workers| :: WorkerOk(job, s, s.workers[v])
    requires forall v | 0 <= v < |s.workers| && v != w :: s'.workers[v] == s.workers[v]
    requires w < |s.workers| ==> WorkerOk(job, s', s'.workers[w])
    ensures forall v | 0 <= v < |s'.workers| :: WorkerOk(job, s', s'.workers[v])
  {
    forall v | 0 <= v < |s'.workers| ensures WorkerOk(job, s', s'.workers[v]) {
      if v != w {
        assert WorkerOk(job, s, s.workers[v]);
      }
    }
  }

  lemma GetTaskKeeps(job: Job, s: State, now: int)
    requires CoordinatorOk(job, s)
    ensures var (c, a) := GetTask(s.coordinator, now);
      && CoordinatorOk(job, s.(coordinator := c))
      && Later(s, s.(coordinator := c))
      && (a.MapTask? ==> a.id < |job.files|)
      && (a.ReduceTask? ==> a.id < job.nReduce && c.phase == ReducePhase)
      && (s.coordinator.phase != MapPhase ==> c.phase != MapPhase)
  {
  }

  lemma AskKeeps(job: Job, s: State, e: Event)
    requires job.nReduce > 0 && Inv(job, s) && Enabled(job, s, e) && e.Ask?
    ensures Inv(job, Step(job, s, e))
  {
    var s' := Step(job, s, e);
    GetTaskKeeps(job, s, e.now);
    WorkersKeep(job, s, s', e.w);
  }

  lemma RenameBucketKeeps(job: Job, s: State, e: Event)
    requires job.nReduce > 0 && Inv(job, s) && Enabled(job, s, e) && e.RenameBucket?
    ensures Inv(job, Step(job, s, e))
  {
    var s' := Step(job, s, e);
    assert WorkerOk(job, s, s.workers[e.w]);
    WorkersKeep(job, s, s', e.w);
  }

  /** A reducer only reads files that exist: it was started after all maps had finished. */
  lemma ReadBucketKeeps(job: Job, s: State, e: Event)
    requires job.nReduce > 0 && Inv(job, s) && Enabled(job, s, e) && e.ReadBucket?
    ensures Inv(job, Step(job, s, e))
  {
    var s' := Step(job, s, e);
    var x := s.workers[e.w];
    assert WorkerOk(job, s, x);
    assert s.coordinator.mapTasks[x.read].state == Completed;
    assert MapDone(job, s, x.read, job.nReduce);
    assert (x.read, x.task) in s.inter;
    WorkersKeep(job, s, s', e.w);
  }

  lemma RenameOutputKeeps(job: Job, s: State, e: Event)
    requires job.nReduce > 0 && Inv(job, s) && Enabled(job, s, e) && e.RenameOutput?
    ensures Inv(job, Step(job, s, e))
  {
    var s' := Step(job, s, e);
    var x := s.workers[e.w];
    assert WorkerOk(job, s, x);
    assert OutputOk(job, x.task, Lines(e.sorted, job.reducef));
    WorkersKeep(job, s, s', e.w);
  }

  lemma FinishKeeps(job: Job, s: State, e: Event)
    requires job.nReduce > 0 && Inv(job, s) && Enabled(job, s, e) && e.Finish?
    ensures Inv(job, Step(job, s, e))
  {
    var s' := Step(job, s, e);
    assert WorkerOk(job, s, s.workers[e.w]);
    WorkersKeep(job, s, s', e.w);
  }

  lemma StepKeeps(job: Job, s: State, e: Event)
    requires job.nReduce > 0 && Inv(job, s) && Enabled(job, s, e)
    ensures Inv(job, Step(job, s, e))
  {
    match e
    case Join =>
      var s' := Step(job, s, e);
      forall v | 0 <= v < |s'.workers| ensures WorkerOk(job, s', s'.workers[v]) {
        assert v < |s.workers| ==> WorkerOk(job, s, s.workers[v]);
      }
    case Ask(_, _, _) => AskKeeps(job, s, e);
    case RenameBucket(_) => RenameBucketKeeps(job, s, e);
    case ReadBucket(_) => ReadBucketKeeps(job, s, e);
    case RenameOutput(_, _) => RenameOutputKeeps(job, s, e);
    case Finish(_, _) => FinishKeeps(job, s, e);
    case Timer(now) =>
      WorkersKeep(job, s, Step(job, s, e), |s.workers|);
  }

  lemma {:induction false} RunKeeps(job: Job, run: seq<State>)
    requires job.nReduce > 0 && Run(job, run)
    ensures Inv(job, run[|run| - 1])
  {
    var k := |run| - 1;
    if k > 0 {
      assert Next(job, run[k - 1], run[k]);
      var before := run[..k];
      forall i | 0 < i < |before| ensures Next(job, before[i - 1], before[i]) {
        assert Next(job, run[i - 1], run[i]);
      }
      RunKeeps(job, before);
      var e :| Enabled(job, run[k - 1], e) && run[k] == Step(job, run[k - 1], e);
      StepKeeps(job, run[k - 1], e);
    }
  }

  // ---------------------------------------------------------------- what the files say

  ghost predicate InBucket(job: Job, k: string, r: nat)
    requires job.nReduce > 0
  {
    job.hash(k) % job.nReduce == r
  }

  lemma {:induction false} BucketVals(kva: seq<KeyValue>, hash: string -> nat, n: nat, r: nat, k: string)
    requires n > 0
    ensures Vals(Bucket(kva, hash, n, r), k) == if hash(k) % n == r then Vals(kva, k) else []
    ensures k in Keys(Bucket(kva, hash, n, r)) <==> k in Keys(kva) && hash(k) % n == r
    decreases |kva|
  {
    if kva != [] {
      var a, x := kva[..|kva| - 1], kva[|kva| - 1];
      BucketVals(a, hash, n, r, k);
      assert kva == a + [x];
      ValsSplit(a, [x], k);
      ValsSplit(Bucket(a, hash, n, r), [x], k);
      KeysSplit(a, [x]);
      KeysSplit(Bucket(a, hash, n, r), [x]);
    }
  }

  lemma KeysSplit(a: seq<KeyValue>, b: seq<KeyValue>)
    ensures Keys(a + b) == Keys(a) + Keys(b)
  {
    forall k | k in Keys(a) ensures k in Keys(a + b) {
      var i :| 0 <= i < |a| && a[i].key == k;
      assert (a + b)[i].key == k;
    }
    forall k | k in Keys(b) ensures k in Keys(a + b) {
      var i :| 0 <= i < |b| && b[i].key == k;
      assert (a + b)[|a| + i].key == k;
    }
  }

  lemma GatheredNone(k: string)
    ensures Vals([], k) == [] && Keys([]) == {}
  {
  }

  /** What reducer `r` gathers of a key is everything the job emitted for it, if the key is its own. */
  lemma {:induction false} GatheredVals(job: Job, r: nat, m: nat, k: string)
    requires job.nReduce > 0 && m <= |job.files|
    ensures Vals(Gathered(job, r, m), k) == if InBucket(job, k, r) then Vals(AllPairs(job, m), k) else []
    ensures k in Keys(Gathered(job, r, m)) <==> k in Keys(AllPairs(job, m)) && InBucket(job, k, r)
  {
    hide Vals, Keys, Bucket;
    if m == 0 {
      GatheredNone(k);
    } else {
      GatheredVals(job, r, m - 1, k);
      BucketVals(MapOutput(job, m - 1), job.hash, job.nReduce, r, k);
      ValsSplit(Gathered(job, r, m - 1), Intermediate(job, m - 1, r), k);
      ValsSplit(AllPairs(job, m - 1), MapOutput(job, m - 1), k);
      KeysSplit(Gathered(job, r, m - 1), Intermediate(job, m - 1, r));
      KeysSplit(AllPairs(job, m - 1), MapOutput(job, m - 1));
    }
  }

  /** The keys of the output files below `n`. */
  ghost function KeysBelow(job: Job, n: nat): set<string>
    requires job.nReduce > 0
  {
    set k | k in Keys(AllPairs(job, |job.files|)) && job.hash(k) % job.nReduce < n
  }

  /** The keys of one output file. */
  ghost function KeysOf(job: Job, r: nat): set<string>
    requires job.nReduce > 0
  {
    set k | k in Keys(AllPairs(job, |job.files|)) && InBucket(job, k, r)
  }

  ghost function OutputLines(out: map<nat, seq<string>>, n: nat): multiset<string> {
    if n == 0 then multiset{}
    else OutputLines(out, n - 1) + (if n - 1 in out then multiset(out[n - 1]) else multiset{})
  }

  predicate AllWritten(out: map<nat, seq<string>>, n: nat) {
    forall r: nat | r < n :: r in out
  }

  lemma KeysBelowNext(job: Job, n: nat)
    requires job.nReduce > 0
    ensures KeysBelow(job, 0) == {}
    ensures KeysBelow(job, n + 1) == KeysBelow(job, n) + KeysOf(job, n)
    ensures KeysBelow(job, n) !! KeysOf(job, n)
    ensures KeysBelow(job, job.nReduce) == Keys(AllPairs(job, |job.files|))
  {
    hide AllPairs, Keys;
    assert forall k :: job.hash(k) % job.nReduce < job.nReduce;
  }

  lemma GatheredKeys(job: Job, r: nat)
    requires job.nReduce > 0
    ensures Keys(Gathered(job, r, |job.files|)) == KeysOf(job, r)
    ensures forall k | k in KeysOf(job, r) ::
      multiset(Vals(Gathered(job, r, |job.files|), k)) == multiset(Vals(AllPairs(job, |job.files|), k))
  {
    hide AllPairs, Gathered, Vals;
    forall k
      ensures k in Keys(Gathered(job, r, |job.files|)) <==> k in KeysOf(job, r)
      ensures k in KeysOf(job, r) ==> Vals(Gathered(job, r, |job.files|), k) == Vals(AllPairs(job, |job.files|), k)
    {
      GatheredVals(job, r, |job.files|, k);
    }
  }

  /** One output file holds one line for each of its keys, made from all values of the key. */
  lemma OutputPerKey(job: Job, r: nat, lines: seq<string>)
    requires job.nReduce > 0 && OutputOk(job, r, lines) && OrderInsensitive(job.reducef)
    ensures var all := AllPairs(job, |job.files|);
      multiset(lines) == KeyLines(KeysOf(job, r), all, job.reducef)
  {
    hide KeyLines, Keys, KeysOf, Vals, Lines, AllPairs, Gathered;
    var mine := Gathered(job, r, |job.files|);
    var sorted :| IsSortOf(sorted, mine) && lines == Lines(sorted, job.reducef);
    SortedLines(sorted, mine, job.reducef);
    GatheredKeys(job, r);
    KeyLinesSame(KeysOf(job, r), mine, AllPairs(job, |job.files|), job.reducef);
  }

  lemma {:induction false} OutputsBelow(job: Job, out: map<nat, seq<string>>, n: nat)
    requires job.nReduce > 0 && n <= job.nReduce && OrderInsensitive(job.reducef)
    requires forall r: nat | r < n :: r in out && OutputOk(job, r, out[r])
    ensures OutputLines(out, n) == KeyLines(KeysBelow(job, n), AllPairs(job, |job.files|), job.reducef)
  {
    hide KeyLines, KeysOf, KeysBelow, AllPairs, OutputOk;
    var all := AllPairs(job, |job.files|);
    KeysBelowNext(job, 0);
    if n == 0 {
      KeyLinesNone(all, job.reducef);
    } else {
      OutputsBelow(job, out, n - 1);
      OutputPerKey(job, n - 1, out[n - 1]);
      KeysBelowNext(job, n - 1);
      KeyLinesUnion(KeysBelow(job, n - 1), KeysOf(job, n - 1), all, job.reducef);
    }
  }

  /** End to end: for every schedule of timeouts, crashes, lost replies, repeated work and late
      finishes, when the coordinator reaches its exit phase all output files are there, and
      together they hold exactly the lines of the sequential program. */
  lemma EndToEnd(job: Job, run: seq<State>, sorted: seq<KeyValue>)
    requires job.nReduce > 0 && Run(job, run) && OrderInsensitive(job.reducef)
    requires run[|run| - 1].coordinator.phase == ExitPhase
    requires IsSortOf(sorted, AllPairs(job, |job.files|))
    ensures AllWritten(run[|run| - 1].out, job.nReduce)
    ensures OutputLines(run[|run| - 1].out, job.nReduce) == multiset(Lines(sorted, job.reducef))
  {
    hide KeyLines, Keys, Lines, AllPairs, OutputOk, MapDone, KeysBelow;
    RunKeeps(job, run);
    var s := run[|run| - 1];
    OutputsBelow(job, s.out, job.nReduce);
    var all := AllPairs(job, |job.files|);
    SortedLines(sorted, all, job.reducef);
    KeysBelowNext(job, job.nReduce);
  }

  /** Each key is in one output file: in the exit phase the file that its hash names, and no
      other, has its line, made from all its values. */
  lemma KeyInOneFile(job: Job, run: seq<State>, r: nat)
    requires job.nReduce > 0 && Run(job, run) && OrderInsensitive(job.reducef) && r < job.nReduce
    requires run[|run| - 1].coordinator.phase == ExitPhase
    ensures var all := AllPairs(job, |job.files|);
      && r in run[|run| - 1].out
      && multiset(run[|run| - 1].out[r])
         == KeyLines((set k | k in Keys(all) && job.hash(k) % job.nReduce == r), all, job.reducef)
  {
    hide KeyLines, Keys, Lines, AllPairs, OutputOk, MapDone;
    RunKeeps(job, run);
    OutputPerKey(job, r, run[|run| - 1].out[r]);
    assert KeysOf(job, r) == set k | k in Keys(AllPairs(job, |job.files|)) && job.hash(k) % job.nReduce == r;
  }
}
