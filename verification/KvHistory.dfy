/** Any number of clerks call one key/value server over a network that may lose requests
    and replies. A call that fails was never executed or has finished executing. */
module KvHistory {
  import opened KvStore

  datatype Phase =
    | Sending                               // an attempt is on its way to the server
    | Lost                                  // the attempt failed; the clerk will try again
    | Answered(reply: Reply)                // a reply is on its way to the clerk
    | Returned(result: Reply, at: nat)

  /** One Get or Put of some clerk. `applied` counts the executions that changed the store. */
  datatype Op = Op(request: Request, first: bool, phase: Phase, invoked: nat, applied: nat)

  datatype World = World(store: Store, ops: seq<Op>, now: nat)

  datatype Event =
    | Invoke(request: Request)
    | DropRequest(id: nat)
    | Serve(id: nat, delivered: bool)       // execute, and decide the fate of the reply
    | Resend(id: nat)
    | Return(id: nat)

  predicate Applies(request: Request, reply: Reply) {
    request.Put? && reply == PutReply(OK)
  }

  predicate Enabled(w: World, e: Event) {
    match e
    case Invoke(_) => true
    case DropRequest(id) => id < |w.ops| && w.ops[id].phase == Sending
    case Serve(id, _) => id < |w.ops| && w.ops[id].phase == Sending
    case Resend(id) => id < |w.ops| && w.ops[id].phase == Lost
    case Return(id) => id < |w.ops| && w.ops[id].phase.Answered?
  }

  function Step(w: World, e: Event): World
    requires Enabled(w, e)
  {
    var t := w.now + 1;
    match e
    case Invoke(request) =>
      World(w.store, w.ops + [Op(request, true, Sending, w.now, 0)], t)
    case DropRequest(id) =>
      World(w.store, w.ops[id := w.ops[id].(phase := Lost)], t)
    case Serve(id, delivered) =>
      var op := w.ops[id];
      var (store, reply) := Execute(w.store, op.request);
      var op' := op.(phase := if delivered then Answered(reply) else Lost,
                     applied := if Applies(op.request, reply) then op.applied + 1 else op.applied);
      World(store, w.ops[id := op'], t)
    case Resend(id) =>
      World(w.store, w.ops[id := w.ops[id].(phase := Sending, first := false)], t)
    case Return(id) =>
      var op := w.ops[id];
      World(w.store, w.ops[id := op.(phase := Returned(ClerkResult(op.first, op.phase.reply), w.now))], t)
  }

  ghost predicate Next(w: World, w': World) {
    exists e :: Enabled(w, e) && w' == Step(w, e)
  }

  ghost predicate Run(run: seq<World>) {
    && |run| > 0 && run[0] == World(map[], [], 0)
    && forall i | 0 < i < |run| :: Next(run[i - 1], run[i])
  }

  // ---------------------------------------------------------------- the sequential model

  /** The state of one key in the linearizability model. */
  datatype KvState = KvState(value: string, version: nat)

  /** The model's step for one key: does it accept this output, and what state follows? */
  function ModelStep(st: KvState, request: Request, output: Reply): (bool, KvState) {
    match request
    case Get(_) => (output.GetReply? && output.value == st.value, st)
    case Put(_, value, version) =>
      if st.version == version then
        (output == PutReply(OK) || output == PutReply(ErrMaybe), KvState(value, st.version + 1))
      else
        (output == PutReply(ErrVersion) || output == PutReply(ErrMaybe), st)
  }

  /** A point of a linearization: the operation takes effect at `time`. */
  datatype Point = Point(id: nat, time: nat, request: Request, output: Reply)

  datatype Verdict = Rejected | Accepted(state: KvState)

  /** What the model leaves open about a Get: its version is that of the key, and it reports
      ErrNoKey exactly when no Put of the key has succeeded before. */
  predicate GetFits(st: KvState, output: Reply) {
    output.GetReply? ==> output.version == st.version && output.err == (if st.version == 0 then ErrNoKey else OK)
  }

  /** Run the model over the points of one key. */
  function Judge(lin: seq<Point>, key: string): Verdict {
    if lin == [] then Accepted(KvState("", 0))
    else
      var v := Judge(lin[..|lin| - 1], key);
      var p := lin[|lin| - 1];
      if v.Rejected? || p.request.key != key then v
      else
        var (ok, st) := ModelStep(v.state, p.request, p.output);
        if ok && GetFits(v.state, p.output) then Accepted(st) else Rejected
  }

  function Current(store: Store, key: string): KvState {
    if key in store then KvState(store[key].value, store[key].version) else KvState("", 0)
  }

  /** A Put answered ErrNoKey has no place in the model; it leaves the store alone. */
  predicate NoKeyPut(op: Op, reply: Reply) {
    op.request.Put? && reply == PutReply(ErrNoKey)
  }

  ghost predicate HasPoint(lin: seq<Point>, id: nat) {
    exists i :: 0 <= i < |lin| && lin[i].id == id
  }

  ghost predicate PointFits(w: World, p: Point) {
    && p.id < |w.ops| && p.request == w.ops[p.id].request
    && w.ops[p.id].invoked <= p.time < w.now
    && (w.ops[p.id].phase.Returned? ==> p.time <= w.ops[p.id].phase.at && p.output == w.ops[p.id].phase.result)
  }

  /** `lin` is a linearization of `w`: its points are in order, each inside the interval of
      its operation and with the operation's own result, every operation that returned has
      exactly one (a Put answered ErrNoKey has none), and the model accepts it for every key. */
  ghost predicate Linearizes(w: World, lin: seq<Point>) {
    && (forall i, j | 0 <= i < j < |lin| :: lin[i].time < lin[j].time && lin[i].id != lin[j].id)
    && (forall i | 0 <= i < |lin| :: PointFits(w, lin[i]))
    && (forall id: nat | id < |w.ops| && w.ops[id].phase.Returned? ::
          HasPoint(lin, id) <==> !NoKeyPut(w.ops[id], w.ops[id].phase.result))
    && (forall key :: Judge(lin, key) == Accepted(Current(w.store, key)))
  }

  // ---------------------------------------------------------------- invariant

  /** What the clerk would report if nothing more were lost. */
  function Pending(op: Op): Reply {
    match op.phase
    case Answered(r) => ClerkResult(op.first, r)
    case Returned(r, _) => r
    case _ => PutReply(ErrMaybe)
  }

  /** An operation has a point once it changed the store or its answer is decided. */
  predicate Decided(op: Op) {
    || op.applied > 0
    || (op.phase.Answered? && !NoKeyPut(op, op.phase.reply))
    || (op.phase.Returned? && !NoKeyPut(op, op.phase.result))
  }

  predicate KindOk(op: Op, r: Reply) {
    op.request.Get? <==> r.GetReply?
  }

  ghost predicate OpOk(w: World, op: Op) {
    && op.invoked < w.now
    && op.applied <= 1
    && (op.applied == 1 ==>
          && op.request.Put? && op.request.key in w.store
          && w.store[op.request.key].version > op.request.version
          && (op.phase == Sending ==> !op.first))
    && (match op.phase
        case Sending => true
        case Lost => true
        case Answered(r) =>
          && KindOk(op, r) && (op.request.Put? ==> r.err in {OK, ErrVersion, ErrNoKey})
          && (op.request.Put? && r.err == OK ==> op.applied == 1)
          && (op.applied == 1 ==> r.err == OK || (r.err == ErrVersion && !op.first))
        case Returned(r, at) =>
          && KindOk(op, r) && op.invoked <= at < w.now
          && (op.request.Put? ==> r.err in {OK, ErrVersion, ErrNoKey, ErrMaybe})
          && (op.request.Put? && r.err == OK ==> op.applied == 1)
          && (op.applied == 1 ==> r.err == OK || r.err == ErrMaybe)
          && (r.err == ErrMaybe && op.request.Put? ==> !op.first))
  }

  predicate SamePut(a: Op, b: Op) {
    a.request.Put? && b.request.Put? && a.request.key == b.request.key && a.request.version == b.request.version
  }

  /** How many executions changed the value of a key. */
  function Successes(ops: seq<Op>, key: string): nat {
    if ops == [] then 0
    else Successes(ops[..|ops| - 1], key)
         + if ops[|ops| - 1].request.key == key then ops[|ops| - 1].applied else 0
  }

  ghost predicate OpsOk(w: World) {
    forall i | 0 <= i < |w.ops| :: OpOk(w, w.ops[i])
  }

  ghost predicate PointOk(w: World, p: Point) {
    PointFits(w, p) && p.output == Pending(w.ops[p.id])
  }

  ghost predicate Inv(w: World, lin: seq<Point>) {
    && OpsOk(w) && Positive(w.store)
    && (forall i, j | 0 <= i < j < |lin| :: lin[i].time < lin[j].time && lin[i].id != lin[j].id)
    && (forall i {:trigger PointOk(w, lin[i])} | 0 <= i < |lin| :: PointOk(w, lin[i]))
    && (forall id: nat {:trigger HasPoint(lin, id)} | id < |w.ops| :: HasPoint(lin, id) <==> Decided(w.ops[id]))
    && (forall key {:trigger Judge(lin, key)} :: Judge(lin, key) == Accepted(Current(w.store, key)))
  }

  // ---------------------------------------------------------------- steps that add no point

  /** The outcome of an operation, once it has a point, stays what it is. */
  lemma Quiet(w: World, w': World, lin: seq<Point>, id: nat)
    requires Inv(w, lin) && id < |w.ops| && |w'.ops| == |w.ops| && w'.now == w.now + 1
    requires w'.ops == w.ops[id := w'.ops[id]]
    requires w'.ops[id].request == w.ops[id].request && w'.ops[id].invoked == w.ops[id].invoked
    requires OpsOk(w')
    requires Decided(w'.ops[id]) == Decided(w.ops[id])
    requires Decided(w.ops[id]) ==> Pending(w'.ops[id]) == Pending(w.ops[id])
    requires w'.ops[id].phase.Returned? ==> w'.ops[id].phase.at == w.now
    requires forall key :: Current(w'.store, key) == Current(w.store, key)
    requires Positive(w'.store)
    ensures Inv(w', lin)
  {
    forall i | 0 <= i < |lin| ensures PointOk(w', lin[i]) {
      assert PointOk(w, lin[i]);
      assert HasPoint(lin, lin[i].id);
    }
    forall k: nat | k < |w'.ops| ensures HasPoint(lin, k) <==> Decided(w'.ops[k]) {
      assert HasPoint(lin, k) <==> Decided(w.ops[k]);
    }
  }

  lemma OthersOk(w: World, w': World, id: nat)
    requires OpsOk(w)
    requires id < |w.ops| == |w'.ops| && w'.ops == w.ops[id := w'.ops[id]] && w'.now == w.now + 1
    requires forall key | key in w.store :: key in w'.store && w'.store[key].version >= w.store[key].version
    requires OpOk(w', w'.ops[id])
    ensures OpsOk(w')
  {
    forall i | 0 <= i < |w'.ops| ensures OpOk(w', w'.ops[i]) {
      if i != id {
        assert OpOk(w, w.ops[i]);
      }
    }
  }

  /** Every step keeps each operation's bookkeeping. */
  lemma OpsStep(w: World, e: Event)
    requires OpsOk(w) && Enabled(w, e)
    ensures OpsOk(Step(w, e))
  {
    var w' := Step(w, e);
    if e.Invoke? {
      forall i | 0 <= i < |w'.ops| ensures OpOk(w', w'.ops[i]) {
        if i < |w.ops| {
          assert OpOk(w, w.ops[i]);
        }
      }
    } else {
      assert OpOk(w, w.ops[e.id]);
      if e.Serve? {
        ServedOpOk(w, e.id, e.delivered);
      }
      OthersOk(w, w', e.id);
    }
  }

  lemma InvokeKeeps(w: World, lin: seq<Point>, e: Event)
    requires Inv(w, lin) && Enabled(w, e) && e.Invoke?
    ensures Inv(Step(w, e), lin)
  {
    var w' := Step(w, e);
    OpsStep(w, e);
    forall i | 0 <= i < |lin| ensures PointOk(w', lin[i]) {
      assert PointOk(w, lin[i]);
    }
    forall k: nat | k < |w'.ops| ensures HasPoint(lin, k) <==> Decided(w'.ops[k]) {
      if k < |w.ops| {
        assert HasPoint(lin, k) <==> Decided(w.ops[k]);
      } else {
        forall i | 0 <= i < |lin| ensures lin[i].id != k {
          assert PointOk(w, lin[i]);
        }
      }
    }
  }

  lemma ClerkKeeps(w: World, lin: seq<Point>, e: Event)
    requires Inv(w, lin) && Enabled(w, e) && (e.DropRequest? || e.Resend? || e.Return?)
    ensures Inv(Step(w, e), lin)
  {
    var w' := Step(w, e);
    assert OpOk(w, w.ops[e.id]);
    OpsStep(w, e);
    Quiet(w, w', lin, e.id);
  }

  // ---------------------------------------------------------------- executions

  lemma JudgeAppend(lin: seq<Point>, p: Point, key: string)
    ensures Judge(lin + [p], key) ==
      var v := Judge(lin, key);
      if v.Rejected? || p.request.key != key then v
      else
        var (ok, st) := ModelStep(v.state, p.request, p.output);
        if ok && GetFits(v.state, p.output) then Accepted(st) else Rejected
  {
    assert (lin + [p])[..|lin + [p]| - 1] == lin;
  }

  /** Whatever a lost reply hides, the store and the reply follow the model. */
  lemma ExecuteModels(store: Store, request: Request, output: Reply)
    requires Positive(store)
    requires var reply := Execute(store, request).1;
      && !(request.Put? && reply == PutReply(ErrNoKey))
      && (output == reply || (request.Put? && output == PutReply(ErrMaybe)))
    ensures var (ok, st) := ModelStep(Current(store, request.key), request, output);
      && ok && st == Current(Execute(store, request).0, request.key)
      && GetFits(Current(store, request.key), output)
    ensures forall key | key != request.key :: Current(Execute(store, request).0, key) == Current(store, key)
  {
  }

  /** The model state after adding a point for an execution. */
  lemma PointAccepted(store: Store, lin: seq<Point>, p: Point, next: Store)
    requires forall key {:trigger Judge(lin, key)} :: Judge(lin, key) == Accepted(Current(store, key))
    requires Positive(store) && next == Execute(store, p.request).0
    requires var reply := Execute(store, p.request).1;
      && !(p.request.Put? && reply == PutReply(ErrNoKey))
      && (p.output == reply || (p.request.Put? && p.output == PutReply(ErrMaybe)))
    ensures forall key {:trigger Judge(lin + [p], key)} :: Judge(lin + [p], key) == Accepted(Current(next, key))
  {
    ExecuteModels(store, p.request, p.output);
    forall key ensures Judge(lin + [p], key) == Accepted(Current(next, key)) {
      JudgeAppend(lin, p, key);
      assert Judge(lin, key) == Accepted(Current(store, key));
    }
  }

  /** Does this execution decide the operation? */
  predicate Decides(w: World, id: nat, delivered: bool)
    requires id < |w.ops|
  {
    var op := w.ops[id];
    var reply := Execute(w.store, op.request).1;
    op.applied == 0 && (Applies(op.request, reply) || (delivered && !NoKeyPut(op, reply)))
  }

  lemma ServedOpOk(w: World, id: nat, delivered: bool)
    requires id < |w.ops| && w.ops[id].phase == Sending && OpOk(w, w.ops[id])
    ensures var w' := Step(w, Serve(id, delivered));
      && OpOk(w', w'.ops[id])
      && (w.ops[id].applied == 1 ==> Execute(w.store, w.ops[id].request) == (w.store, PutReply(ErrVersion)))
  {
  }

  lemma ServeQuiet(w: World, lin: seq<Point>, id: nat, delivered: bool)
    requires Inv(w, lin) && Enabled(w, Serve(id, delivered)) && !Decides(w, id, delivered)
    ensures Inv(Step(w, Serve(id, delivered)), lin)
  {
    var w' := Step(w, Serve(id, delivered));
    assert OpOk(w, w.ops[id]);
    ServedOpOk(w, id, delivered);
    OpsStep(w, Serve(id, delivered));
    Quiet(w, w', lin, id);
  }

  lemma ServeDecides(w: World, lin: seq<Point>, id: nat, delivered: bool) returns (lin': seq<Point>)
    requires Inv(w, lin) && Enabled(w, Serve(id, delivered)) && Decides(w, id, delivered)
    ensures Inv(Step(w, Serve(id, delivered)), lin')
  {
    var w' := Step(w, Serve(id, delivered));
    assert OpOk(w, w.ops[id]);
    ServedOpOk(w, id, delivered);
    OpsStep(w, Serve(id, delivered));
    var p := Point(id, w.now, w.ops[id].request, Pending(w'.ops[id]));
    lin' := lin + [p];
    assert HasPoint(lin, id) <==> Decided(w.ops[id]);
    PointAccepted(w.store, lin, p, w'.store);
    NewPoint(w, w', lin, p);
  }

  lemma PointsOf(lin: seq<Point>, p: Point, k: nat)
    ensures HasPoint(lin + [p], k) <==> k == p.id || HasPoint(lin, k)
  {
    var lin' := lin + [p];
    assert lin'[|lin|].id == p.id;
    if HasPoint(lin, k) {
      var i :| 0 <= i < |lin| && lin[i].id == k;
      assert lin'[i].id == k;
    }
  }

  lemma NewPoint(w: World, w': World, lin: seq<Point>, p: Point)
    requires Inv(w, lin) && p.id < |w.ops| && |w'.ops| == |w.ops| && w'.now == w.now + 1
    requires w'.ops == w.ops[p.id := w'.ops[p.id]] && PointOk(w', p) && p.time == w.now
    requires !HasPoint(lin, p.id) && Decided(w'.ops[p.id])
    requires OpsOk(w')
    requires forall key {:trigger Judge(lin + [p], key)} :: Judge(lin + [p], key) == Accepted(Current(w'.store, key))
    requires Positive(w'.store)
    ensures Inv(w', lin + [p])
  {
    var lin' := lin + [p];
    forall i | 0 <= i < |lin'| ensures PointOk(w', lin'[i]) {
      if i < |lin| {
        assert PointOk(w, lin[i]) && lin'[i] == lin[i];
        assert HasPoint(lin, lin[i].id);
      }
    }
    forall k: nat | k < |w'.ops| ensures HasPoint(lin', k) <==> Decided(w'.ops[k]) {
      assert HasPoint(lin, k) <==> Decided(w.ops[k]);
      PointsOf(lin, p, k);
    }
    forall i, j | 0 <= i < j < |lin'| ensures lin'[i].time < lin'[j].time && lin'[i].id != lin'[j].id {
      if j == |lin| {
        assert PointOk(w, lin[i]);
        assert HasPoint(lin, lin[i].id);
      }
    }
  }

  // ---------------------------------------------------------------- runs

  lemma {:induction false} Witness(run: seq<World>) returns (lin: seq<Point>)
    requires Run(run)
    ensures Inv(run[|run| - 1], lin)
  {
    var k := |run| - 1;
    if k == 0 {
      lin := [];
    } else {
      assert Next(run[k - 1], run[k]);
      RunPrefix(run);
      lin := Witness(run[..k]);
      var w := run[k - 1];
      var e :| Enabled(w, e) && run[k] == Step(w, e);
      if e.Invoke? {
        InvokeKeeps(w, lin, e);
      } else if !e.Serve? {
        ClerkKeeps(w, lin, e);
      } else if Decides(w, e.id, e.delivered) {
        lin := ServeDecides(w, lin, e.id, e.delivered);
      } else {
        ServeQuiet(w, lin, e.id, e.delivered);
      }
    }
  }

  /** Every interleaving of any number of clerks has a linearization. */
  lemma Linearizable(run: seq<World>) returns (lin: seq<Point>)
    requires Run(run)
    ensures Linearizes(run[|run| - 1], lin)
  {
    lin := Witness(run);
    var w := run[|run| - 1];
    forall i | 0 <= i < |lin| ensures PointFits(w, lin[i]) {
      assert PointOk(w, lin[i]);
    }
    forall id: nat | id < |w.ops| && w.ops[id].phase.Returned?
      ensures HasPoint(lin, id) <==> !NoKeyPut(w.ops[id], w.ops[id].phase.result)
    {
      assert HasPoint(lin, id) <==> Decided(w.ops[id]);
      assert OpOk(w, w.ops[id]);
    }
  }

  /** The clerk hands on the server's own answer, except that ErrVersion on a resend becomes
      ErrMaybe. */
  lemma ReturnReports(run: seq<World>, id: nat)
    requires Run(run) && id < |run[|run| - 1].ops| && run[|run| - 1].ops[id].phase.Answered?
    ensures var w := run[|run| - 1];
      var op, op' := w.ops[id], Step(w, Return(id)).ops[id];
      && op'.phase.Returned? && op'.phase.at == w.now
      && if op.phase.reply == PutReply(ErrVersion) && !op.first then op'.phase.result == PutReply(ErrMaybe)
         else op'.phase.result == op.phase.reply
  {
  }

  /** The outcome of a Put is exact: OK means applied exactly once, ErrVersion and ErrNoKey
      mean never, ErrMaybe means at most once and only after a resend; nothing else is
      ever returned. */
  lemma PutOutcomes(run: seq<World>, id: nat)
    requires Run(run)
    requires var w := run[|run| - 1];
      id < |w.ops| && w.ops[id].request.Put? && w.ops[id].phase.Returned?
    ensures var op := run[|run| - 1].ops[id];
      match op.phase.result
      case PutReply(OK) => op.applied == 1
      case PutReply(ErrVersion) => op.applied == 0
      case PutReply(ErrNoKey) => op.applied == 0
      case PutReply(ErrMaybe) => op.applied <= 1 && !op.first
      case _ => false
  {
    var lin := Witness(run);
    assert OpOk(run[|run| - 1], run[|run| - 1].ops[id]);
  }

  // ---------------------------------------------------------------- versions

  lemma {:induction false} SuccessesUpdate(ops: seq<Op>, id: nat, op: Op, key: string)
    requires id < |ops| && op.request == ops[id].request
    ensures Successes(ops[id := op], key) ==
            Successes(ops, key) + (if op.request.key == key then op.applied - ops[id].applied else 0)
  {
    var k := |ops| - 1;
    if id == k {
      assert ops[id := op][..k] == ops[..k];
    } else {
      assert ops[id := op][..k] == ops[..k][id := op];
      SuccessesUpdate(ops[..k], id, op, key);
    }
  }

  /** Versions count successes, and a version of a key is written at most once. */
  ghost predicate Versioned(w: World) {
    && (forall key {:trigger Current(w.store, key)} :: Current(w.store, key).version == Successes(w.ops, key))
    && (forall i, j | 0 <= i < j < |w.ops| && SamePut(w.ops[i], w.ops[j]) :: w.ops[i].applied + w.ops[j].applied <= 1)
  }

  lemma VersionsStep(w: World, e: Event, key: string)
    requires Enabled(w, e) && Current(w.store, key).version == Successes(w.ops, key)
    ensures Current(Step(w, e).store, key).version == Successes(Step(w, e).ops, key)
  {
    hide Successes;
    var w' := Step(w, e);
    if e.Invoke? {
      SuccessesAppend(w.ops, w'.ops[|w.ops|], key);
    } else {
      SuccessesUpdate(w.ops, e.id, w'.ops[e.id], key);
    }
  }

  lemma SuccessesAppend(ops: seq<Op>, op: Op, key: string)
    ensures Successes(ops + [op], key) == Successes(ops, key) + (if op.request.key == key then op.applied else 0)
  {
    assert (ops + [op])[..|ops|] == ops;
  }

  /** An execution that succeeds finds the version that no other success has used. */
  lemma OnceStep(w: World, e: Event, i: nat, j: nat)
    requires OpsOk(w) && Enabled(w, e) && i < j < |Step(w, e).ops|
    requires j < |w.ops| && SamePut(w.ops[i], w.ops[j]) ==> w.ops[i].applied + w.ops[j].applied <= 1
    requires SamePut(Step(w, e).ops[i], Step(w, e).ops[j])
    ensures Step(w, e).ops[i].applied + Step(w, e).ops[j].applied <= 1
  {
    OpsStep(w, e);
    assert OpOk(Step(w, e), Step(w, e).ops[i]);
    if j < |w.ops| {
      assert OpOk(w, w.ops[i]) && OpOk(w, w.ops[j]);
    }
  }

  lemma VersionedStep(w: World, e: Event)
    requires OpsOk(w) && Versioned(w) && Enabled(w, e)
    ensures Versioned(Step(w, e))
  {
    hide OpsOk, Successes;
    var w' := Step(w, e);
    forall key ensures Current(w'.store, key).version == Successes(w'.ops, key) {
      VersionsStep(w, e, key);
    }
    forall i, j | 0 <= i < j < |w'.ops| && SamePut(w'.ops[i], w'.ops[j]) ensures w'.ops[i].applied + w'.ops[j].applied <= 1 {
      OnceStep(w, e, i, j);
    }
  }

  /** In every run the version of a key is its number of successful Puts, and no two Puts
      of one key and version both succeed. */
  lemma {:induction false} VersionsCountPuts(run: seq<World>)
    requires Run(run)
    ensures Versioned(run[|run| - 1])
  {
    var k := |run| - 1;
    if k > 0 {
      assert Next(run[k - 1], run[k]);
      RunPrefix(run);
      VersionsCountPuts(run[..k]);
      var lin := Witness(run[..k]);
      var e :| Enabled(run[k - 1], e) && run[k] == Step(run[k - 1], e);
      VersionedStep(run[k - 1], e);
    }
  }

  lemma RunPrefix(run: seq<World>)
    requires Run(run) && |run| > 1
    ensures Run(run[..|run| - 1])
  {
    var before := run[..|run| - 1];
    forall i | 0 < i < |before| ensures Next(before[i - 1], before[i]) {
      assert Next(run[i - 1], run[i]);
    }
  }

  // ---------------------------------------------------------------- the limit of the model

  /** The model accepts what the server says, except exactly for a Put that finds no key. */
  lemma ModelAcceptsServer(store: Store, request: Request)
    ensures ModelStep(Current(store, request.key), request, Execute(store, request).1).0
       <==> !(request.Put? && request.key !in store && request.version != 0)
    ensures ModelStep(Current(store, request.key), request, Execute(store, request).1).1
         == Current(Execute(store, request).0, request.key)
  {
  }
}
