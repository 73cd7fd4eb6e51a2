/** The coordinator: hands out tasks, takes them back after a timeout, moves from the map
    phase to the reduce phase to the end. */
module MrCoordinator {

  datatype TaskState = Idle | InProgress | Completed

  datatype Task = Task(state: TaskState, startTime: int, filename: string)

  datatype Phase = MapPhase | ReducePhase | ExitPhase

  datatype Coordinator = Coordinator(mapTasks: seq<Task>, reduceTasks: seq<Task>, phase: Phase)

  datatype Assignment =
    | MapTask(id: nat, filename: string)
    | ReduceTask(id: nat)
    | WaitTask
    | ExitTask

  /** Seconds after which a task is given to another worker. */
  const TIMEOUT := 10

  function Make(files: seq<string>, nReduce: nat): Coordinator {
    Coordinator(seq(|files|, i requires 0 <= i < |files| => Task(Idle, 0, files[i])),
                seq(nReduce, _ => Task(Idle, 0, "")), MapPhase)
  }

  /** The first idle task from `i` on, or the number of tasks. */
  function FirstIdle(tasks: seq<Task>, i: nat): (r: nat)
    requires i <= |tasks|
    ensures i <= r <= |tasks|
    ensures r < |tasks| ==> tasks[r].state == Idle
    ensures forall k | i <= k < r :: tasks[k].state != Idle
    decreases |tasks| - i
  {
    if i == |tasks| || tasks[i].state == Idle then i else FirstIdle(tasks, i + 1)
  }

  predicate AllCompleted(tasks: seq<Task>) {
    forall i | 0 <= i < |tasks| :: tasks[i].state == Completed
  }

  function Begin(tasks: seq<Task>, i: nat, now: int): seq<Task>
    requires i < |tasks|
  {
    tasks[i := tasks[i].(state := InProgress, startTime := now)]
  }

  function GetReduceTask(c: Coordinator, now: int): (Coordinator, Assignment) {
    if c.phase != ReducePhase then (c, ExitTask)
    else
      var i := FirstIdle(c.reduceTasks, 0);
      if i < |c.reduceTasks| then (c.(reduceTasks := Begin(c.reduceTasks, i, now)), ReduceTask(i))
      else if AllCompleted(c.reduceTasks) then (c.(phase := ExitPhase), ExitTask)
      else (c, WaitTask)
  }

  function GetTask(c: Coordinator, now: int): (Coordinator, Assignment) {
    if c.phase != MapPhase then GetReduceTask(c, now)
    else
      var i := FirstIdle(c.mapTasks, 0);
      if i < |c.mapTasks| then (c.(mapTasks := Begin(c.mapTasks, i, now)), MapTask(i, c.mapTasks[i].filename))
      else if AllCompleted(c.mapTasks) then GetReduceTask(c.(phase := ReducePhase), now)
      else (c, WaitTask)
  }

  function Complete(tasks: seq<Task>, i: nat): seq<Task>
    requires i < |tasks|
  {
    tasks[i := tasks[i].(state := Completed)]
  }

  function FinishedMap(c: Coordinator, i: nat): Coordinator
    requires i < |c.mapTasks|
  {
    if c.phase == MapPhase then c.(mapTasks := Complete(c.mapTasks, i)) else c
  }

  function FinishedReduce(c: Coordinator, i: nat): Coordinator
    requires i < |c.reduceTasks|
  {
    if c.phase == ReducePhase then c.(reduceTasks := Complete(c.reduceTasks, i)) else c
  }

  function Expire(t: Task, now: int): Task {
    if t.state == InProgress && now - t.startTime > TIMEOUT then t.(state := Idle) else t
  }

  function ExpireAll(tasks: seq<Task>, now: int): seq<Task> {
    seq(|tasks|, i requires 0 <= i < |tasks| => Expire(tasks[i], now))
  }

  function CheckTimeouts(c: Coordinator, now: int): Coordinator {
    match c.phase
    case MapPhase => c.(mapTasks := ExpireAll(c.mapTasks, now))
    case ReducePhase => c.(reduceTasks := ExpireAll(c.reduceTasks, now))
    case ExitPhase => c
  }

  /** What an answer means: a task is only handed out when nobody is known to work on it, a
      reduce task only when every map is completed, Wait only while a task of the phase is
      in progress and none is idle, Exit exactly when the job is over. */
  lemma AnswerMeans(c: Coordinator, now: int)
    ensures var (c', a) := GetTask(c, now);
      match a
      case MapTask(i, f) =>
        && c.phase == MapPhase && i < |c.mapTasks| && c.mapTasks[i].state == Idle && f == c.mapTasks[i].filename
        && c' == c.(mapTasks := c'.mapTasks) && c'.mapTasks == Begin(c.mapTasks, i, now)
      case ReduceTask(i) =>
        && i < |c.reduceTasks| && c.reduceTasks[i].state == Idle && c'.phase == ReducePhase
        && (c.phase == MapPhase ==> AllCompleted(c.mapTasks))
        && c' == c.(phase := ReducePhase, reduceTasks := Begin(c.reduceTasks, i, now))
      case WaitTask =>
        && (c'.phase == MapPhase || c'.phase == ReducePhase)
        && var tasks := if c'.phase == MapPhase then c'.mapTasks else c'.reduceTasks;
           (exists i :: 0 <= i < |tasks| && tasks[i].state == InProgress)
           && (forall i | 0 <= i < |tasks| :: tasks[i].state != Idle)
      case ExitTask =>
        && c'.phase == ExitPhase
        && (c.phase != ExitPhase ==> AllCompleted(c.reduceTasks))
  {
  }

  /** Work that is handed out at `t` is taken back by a check exactly when more than ten seconds
      have passed; a check touches nothing else, least of all what is completed. */
  lemma TakenBackExactly(c: Coordinator, t: int, now: int)
    ensures var (b, a) := GetTask(c, t);
      var d := CheckTimeouts(b, now);
      && (a.MapTask? ==> a.id < |d.mapTasks| && (d.mapTasks[a.id].state == Idle <==> now > t + 10))
      && (a.ReduceTask? ==> a.id < |d.reduceTasks| && (d.reduceTasks[a.id].state == Idle <==> now > t + 10))
    ensures var d := CheckTimeouts(c, now);
      && d.phase == c.phase && |d.mapTasks| == |c.mapTasks| && |d.reduceTasks| == |c.reduceTasks|
      && (forall i | 0 <= i < |c.mapTasks| && c.mapTasks[i].state != InProgress :: d.mapTasks[i] == c.mapTasks[i])
      && (forall i | 0 <= i < |c.reduceTasks| && c.reduceTasks[i].state != InProgress :: d.reduceTasks[i] == c.reduceTasks[i])
  {
  }

  /** A report counts in its own phase, for its own entry; a late one changes nothing. */
  lemma FinishExactly(c: Coordinator, i: nat)
    ensures i < |c.mapTasks| ==> var d := FinishedMap(c, i);
      && d.reduceTasks == c.reduceTasks && d.phase == c.phase && |d.mapTasks| == |c.mapTasks|
      && (forall k | 0 <= k < |c.mapTasks| && k != i :: d.mapTasks[k] == c.mapTasks[k])
      && (c.phase == MapPhase ==> d.mapTasks[i].state == Completed) && (c.phase != MapPhase ==> d == c)
    ensures i < |c.reduceTasks| ==> var d := FinishedReduce(c, i);
      && d.mapTasks == c.mapTasks && d.phase == c.phase && |d.reduceTasks| == |c.reduceTasks|
      && (forall k | 0 <= k < |c.reduceTasks| && k != i :: d.reduceTasks[k] == c.reduceTasks[k])
      && (c.phase == ReducePhase ==> d.reduceTasks[i].state == Completed) && (c.phase != ReducePhase ==> d == c)
  {
  }

  // ---------------------------------------------------------------- the object

  class CoordinatorServer {
    const mapTasks: array<Task>
    const reduceTasks: array<Task>
    var phase: Phase

    ghost function View(): Coordinator
      reads this, mapTasks, reduceTasks
    {
      Coordinator(mapTasks[..], reduceTasks[..], phase)
    }

    constructor (files: seq<string>, nReduce: nat)
      ensures fresh(mapTasks) && fresh(reduceTasks) && mapTasks != reduceTasks
      ensures View() == Make(files, nReduce)
    {
      mapTasks := new Task[|files|](i requires 0 <= i < |files| => Task(Idle, 0, files[i]));
      reduceTasks := new Task[nReduce](_ => Task(Idle, 0, ""));
      phase := MapPhase;
    }

    /** Scan for an idle task, and note whether all are completed. */
    method Scan(tasks: array<Task>, now: int) returns (i: nat, allDone: bool)
      modifies tasks
      ensures i == FirstIdle(old(tasks[..]), 0)
      ensures tasks[..] == if i < tasks.Length then Begin(old(tasks[..]), i, now) else old(tasks[..])
      ensures i == tasks.Length ==> allDone == AllCompleted(old(tasks[..]))
    {
      allDone := true;
      i := 0;
      while i < tasks.Length
        invariant i <= tasks.Length && tasks[..] == old(tasks[..])
        invariant FirstIdle(tasks[..], 0) == FirstIdle(tasks[..], i)
        invariant allDone <==> forall k | 0 <= k < i :: tasks[k].state == Completed
      {
        if tasks[i].state == Idle {
          tasks[i] := tasks[i].(state := InProgress, startTime := now);
          assert tasks[..] == Begin(old(tasks[..]), i, now);
          return;
        }
        if tasks[i].state != Completed {
          allDone := false;
        }
        i := i + 1;
      }
    }

    method Assign(now: int) returns (a: Assignment)
      requires mapTasks != reduceTasks
      modifies this, mapTasks, reduceTasks
      ensures (View(), a) == GetTask(old(View()), now)
    {
      if phase == MapPhase {
        var i, allMapsDone := Scan(mapTasks, now);
        if i < mapTasks.Length {
          return MapTask(i, mapTasks[i].filename);
        }
        if allMapsDone {
          phase := ReducePhase;
        } else {
          return WaitTask;
        }
      }
      if phase == ReducePhase {
        var i, allReducesDone := Scan(reduceTasks, now);
        if i < reduceTasks.Length {
          return ReduceTask(i);
        }
        if allReducesDone {
          phase := ExitPhase;
        } else {
          return WaitTask;
        }
      }
      a := ExitTask;
    }

    method MapFinished(i: nat)
      requires i < mapTasks.Length && mapTasks != reduceTasks
      modifies mapTasks
      ensures View() == FinishedMap(old(View()), i)
    {
      if phase == MapPhase {
        mapTasks[i] := mapTasks[i].(state := Completed);
        assert mapTasks[..] == Complete(old(mapTasks[..]), i);
      }
    }

    method ReduceFinished(i: nat)
      requires i < reduceTasks.Length && mapTasks != reduceTasks
      modifies reduceTasks
      ensures View() == FinishedReduce(old(View()), i)
    {
      if phase == ReducePhase {
        reduceTasks[i] := reduceTasks[i].(state := Completed);
        assert reduceTasks[..] == Complete(old(reduceTasks[..]), i);
      }
    }

    method ExpireTasks(tasks: array<Task>, now: int)
      modifies tasks
      ensures tasks[..] == ExpireAll(old(tasks[..]), now)
    {
      for i := 0 to tasks.Length
        invariant forall k | 0 <= k < i :: tasks[k] == Expire(old(tasks[k]), now)
        invariant forall k | i <= k < tasks.Length :: tasks[k] == old(tasks[k])
      {
        if tasks[i].state == InProgress && now - tasks[i].startTime > TIMEOUT {
          tasks[i] := tasks[i].(state := Idle);
        }
      }
    }

    method Tick(now: int)
      requires mapTasks != reduceTasks
      modifies mapTasks, reduceTasks
      ensures View() == CheckTimeouts(old(View()), now)
    {
      if phase == MapPhase {
        ExpireTasks(mapTasks, now);
      } else if phase == ReducePhase {
        ExpireTasks(reduceTasks, now);
      }
    }
  }
}
