/** Locks kept in the key/value server, and the clients that take and release one of them
    through clerks whose calls may be lost. */
module KvLock {
  import opened KvStore
  import opened KvHistory

  /** Where a client stands in Acquire or Release; `AcqCheck` is the Get after ErrMaybe. */
  datatype Pc =
    | Outside
    | AcqGet
    | AcqPut(version: nat)
    | AcqCheck
    | Holding
    | RelGet
    | RelPut(version: nat)

  /** `op` is the clerk call the client waits for, when it waits. */
  datatype Client = Client(id: string, pc: Pc, op: nat)

  datatype State = State(kv: World, clients: seq<Client>)

  datatype Move =
    | Net(event: Event)               // the network, the server, or a clerk of another key
    | Acquire(client: nat)
    | Release(client: nat)
    | Proceed(client: nat)            // the awaited call has returned

  predicate Waiting(c: Client) {
    c.pc != Outside && c.pc != Holding
  }

  predicate CanMove(s: State, key: string, m: Move) {
    match m
    case Net(e) => Enabled(s.kv, e) && (e.Invoke? ==> e.request.key != key)
    case Acquire(c) => c < |s.clients| && s.clients[c].pc == Outside
    case Release(c) => c < |s.clients| && !Waiting(s.clients[c])
    case Proceed(c) =>
      && c < |s.clients| && Waiting(s.clients[c])
      && s.clients[c].op < |s.kv.ops| && s.kv.ops[s.clients[c].op].phase.Returned?
  }

  /** Issue a call and wait for it. */
  function Call(s: State, c: nat, pc: Pc, request: Request): State
    requires c < |s.clients|
  {
    State(KvHistory.Step(s.kv, Invoke(request)),
          s.clients[c := s.clients[c].(pc := pc, op := |s.kv.ops|)])
  }

  function Become(s: State, c: nat, pc: Pc): State
    requires c < |s.clients|
  {
    s.(clients := s.clients[c := s.clients[c].(pc := pc)])
  }

  /** The client reads the result of its call. */
  function Continue(s: State, key: string, c: nat, r: Reply): State
    requires c < |s.clients| && Waiting(s.clients[c])
  {
    var me := s.clients[c];
    match me.pc
    case AcqGet =>
      if r.err == ErrNoKey then Call(s, c, AcqPut(0), Put(key, me.id, 0))
      else if r.err == OK && r.GetReply? && r.value == "" then Call(s, c, AcqPut(r.version), Put(key, me.id, r.version))
      else Call(s, c, AcqGet, Get(key))
    case AcqPut(_) =>
      if r.err == OK then Become(s, c, Holding)
      else if r.err == ErrMaybe then Call(s, c, AcqCheck, Get(key))
      else Call(s, c, AcqGet, Get(key))
    case AcqCheck =>
      if r.err == OK && r.GetReply? && r.value == me.id then Become(s, c, Holding)
      else Call(s, c, AcqGet, Get(key))
    case RelGet =>
      if r.err == OK && r.GetReply? && r.value == me.id then Call(s, c, RelPut(r.version), Put(key, "", r.version))
      else Become(s, c, Outside)
    case RelPut(_) =>
      if r.err == OK then Become(s, c, Outside) else Call(s, c, RelGet, Get(key))
  }

  function Do(s: State, key: string, m: Move): State
    requires CanMove(s, key, m)
  {
    match m
    case Net(e) => s.(kv := KvHistory.Step(s.kv, e))
    case Acquire(c) => Call(s, c, AcqGet, Get(key))
    case Release(c) => Call(s, c, RelGet, Get(key))
    case Proceed(c) => Continue(s, key, c, s.kv.ops[s.clients[c].op].phase.result)
  }

  /** Clients carry distinct, non-empty identifiers. */
  predicate DistinctIds(clients: seq<Client>) {
    && (forall c | 0 <= c < |clients| :: clients[c].id != "")
    && (forall c, d | 0 <= c < d < |clients| :: clients[c].id != clients[d].id)
  }

  predicate Init(s: State) {
    && s.kv == World(map[], [], 0) && DistinctIds(s.clients)
    && forall c | 0 <= c < |s.clients| :: s.clients[c].pc == Outside
  }

  ghost predicate Next(s: State, s': State, key: string) {
    exists m :: CanMove(s, key, m) && s' == Do(s, key, m)
  }

  ghost predicate Run(run: seq<State>, key: string) {
    && |run| > 0 && Init(run[0])
    && forall i | 0 < i < |run| :: Next(run[i - 1], run[i], key)
  }

  // ---------------------------------------------------------------- invariant

  function Last(val: seq<string>): string
    requires val != []
  {
    val[|val| - 1]
  }

  /** A reply reports a value that the lock had at the reported version. */
  ghost predicate Seen(val: seq<string>, r: Reply) {
    r.GetReply? ==>
      && r.version < |val| && r.value == val[r.version]
      && (r.err == OK || (r.err == ErrNoKey && r.version == 0))
  }

  ghost predicate GetsSeen(w: World, key: string, val: seq<string>, k: nat)
    requires k < |w.ops|
  {
    var op := w.ops[k];
    op.request == Get(key) ==>
      && (op.phase.Answered? ==> Seen(val, op.phase.reply))
      && (op.phase.Returned? ==> Seen(val, op.phase.result))
  }

  /** The Get after ErrMaybe found the client's own identifier. */
  predicate FoundOwn(op: Op, id: string) {
    || (op.phase.Answered? && op.phase.reply.GetReply? && op.phase.reply.value == id)
    || (op.phase.Returned? && op.phase.result.GetReply? && op.phase.result.value == id)
  }

  /** A Get of Release found that the lock is not the client's. */
  predicate FoundOther(op: Op, id: string) {
    || (op.phase.Answered? && op.phase.reply.GetReply? && op.phase.reply.value != id)
    || (op.phase.Returned? && op.phase.result.GetReply? && op.phase.result.value != id)
  }

  ghost predicate ClientOk(s: State, key: string, val: seq<string>, c: nat)
    requires c < |s.clients| && val != []
  {
    var me := s.clients[c];
    && (Waiting(me) ==> me.op < |s.kv.ops|)
    && match me.pc
       case Outside => Last(val) != me.id
       case Holding => Last(val) == me.id
       case AcqGet => s.kv.ops[me.op].request == Get(key)
       case RelGet =>
         && s.kv.ops[me.op].request == Get(key)
         && (FoundOther(s.kv.ops[me.op], me.id) ==> Last(val) != me.id)
       case AcqCheck =>
         && s.kv.ops[me.op].request == Get(key)
         && (FoundOwn(s.kv.ops[me.op], me.id) ==> Last(val) == me.id)
       case AcqPut(v) =>
         && s.kv.ops[me.op].request == Put(key, me.id, v) && v < |val| && val[v] == ""
         && (s.kv.ops[me.op].applied > 0 ==> Last(val) == me.id)
       case RelPut(v) =>
         && s.kv.ops[me.op].request == Put(key, "", v) && v < |val| && val[v] == me.id
         && (s.kv.ops[me.op].applied > 0 ==> Last(val) != me.id)
  }

  /** Only the clients of the lock write it. */
  ghost predicate Owned(s: State, key: string, k: nat)
    requires k < |s.kv.ops|
  {
    var op := s.kv.ops[k];
    op.request.Put? && op.request.key == key && !op.phase.Returned? ==>
      exists c: nat :: c < |s.clients| && Writes(s.clients[c], k)
  }

  predicate Writes(c: Client, k: nat) {
    c.op == k && (c.pc.AcqPut? || c.pc.RelPut?)
  }

  /** `val` lists the values the lock has had, by version. */
  ghost predicate Inv(s: State, key: string, val: seq<string>) {
    && OpsOk(s.kv) && DistinctIds(s.clients)
    && val != [] && val[0] == ""
    && Current(s.kv.store, key) == KvState(Last(val), |val| - 1)
    && (forall k: nat {:trigger GetsSeen(s.kv, key, val, k)} | k < |s.kv.ops| :: GetsSeen(s.kv, key, val, k))
    && (forall c: nat {:trigger ClientOk(s, key, val, c)} | c < |s.clients| :: ClientOk(s, key, val, c))
    && (forall k: nat {:trigger Owned(s, key, k)} | k < |s.kv.ops| :: Owned(s, key, k))
    && (forall c, d | 0 <= c < d < |s.clients| && Waiting(s.clients[c]) && Waiting(s.clients[d]) ::
          s.clients[c].op != s.clients[d].op)
  }

  // ---------------------------------------------------------------- client steps

  lemma CallKeeps(s: State, key: string, val: seq<string>, c: nat, pc: Pc, request: Request)
    requires Inv(s, key, val) && c < |s.clients| && request.key == key
    requires s.clients[c].pc == Outside || s.clients[c].pc == Holding
             || (s.clients[c].op < |s.kv.ops| && s.kv.ops[s.clients[c].op].phase.Returned?)
    requires match pc
             case AcqGet => request == Get(key)
             case RelGet => request == Get(key)
             case AcqCheck => request == Get(key)
             case AcqPut(v) => request == Put(key, s.clients[c].id, v) && v < |val| && val[v] == ""
             case RelPut(v) => request == Put(key, "", v) && v < |val| && val[v] == s.clients[c].id
             case _ => false
    ensures Inv(Call(s, c, pc, request), key, val)
  {
    var s' := Call(s, c, pc, request);
    OpsStep(s.kv, Invoke(request));
    forall k: nat | k < |s'.kv.ops| ensures GetsSeen(s'.kv, key, val, k) {
      assert k < |s.kv.ops| ==> GetsSeen(s.kv, key, val, k);
    }
    forall d: nat | d < |s'.clients| ensures ClientOk(s', key, val, d) {
      assert ClientOk(s, key, val, d);
    }
    forall k: nat | k < |s'.kv.ops| ensures Owned(s', key, k) {
      if k < |s.kv.ops| {
        assert Owned(s, key, k);
        if s'.kv.ops[k].request.Put? && s'.kv.ops[k].request.key == key && !s'.kv.ops[k].phase.Returned? {
          var d: nat :| d < |s.clients| && Writes(s.clients[d], k);
          assert Writes(s'.clients[d], k);
        }
      } else {
        assert s'.kv.ops[k].request.Put? ==> Writes(s'.clients[c], k);
      }
    }
    forall d, e | 0 <= d < e < |s'.clients| && Waiting(s'.clients[d]) && Waiting(s'.clients[e])
      ensures s'.clients[d].op != s'.clients[e].op
    {
      assert ClientOk(s, key, val, d) && ClientOk(s, key, val, e);
    }
  }

  lemma BecomeKeeps(s: State, key: string, val: seq<string>, c: nat, pc: Pc)
    requires Inv(s, key, val) && c < |s.clients| && Waiting(s.clients[c])
    requires s.clients[c].op < |s.kv.ops| && s.kv.ops[s.clients[c].op].phase.Returned?
    requires (pc == Outside && Last(val) != s.clients[c].id) || (pc == Holding && Last(val) == s.clients[c].id)
    ensures Inv(Become(s, c, pc), key, val)
  {
    var s' := Become(s, c, pc);
    forall k: nat | k < |s'.kv.ops| ensures GetsSeen(s'.kv, key, val, k) {
      assert GetsSeen(s.kv, key, val, k);
    }
    forall d: nat | d < |s'.clients| ensures ClientOk(s', key, val, d) {
      assert ClientOk(s, key, val, d);
    }
    forall k: nat | k < |s'.kv.ops| ensures Owned(s', key, k) {
      assert Owned(s, key, k);
      if s.kv.ops[k].request.Put? && s.kv.ops[k].request.key == key && !s.kv.ops[k].phase.Returned? {
        var d: nat :| d < |s.clients| && Writes(s.clients[d], k);
        assert Writes(s'.clients[d], k);
      }
    }
  }

  lemma ProceedKeeps(s: State, key: string, val: seq<string>, m: Move)
    requires Inv(s, key, val) && CanMove(s, key, m) && m.Proceed?
    ensures Inv(Do(s, key, m), key, val)
  {
    var c := m.client;
    var me := s.clients[c];
    var op := s.kv.ops[me.op];
    var r := op.phase.result;
    assert ClientOk(s, key, val, c) && GetsSeen(s.kv, key, val, me.op) && OpOk(s.kv, op);
    match me.pc
    case AcqGet =>
      if r.err == ErrNoKey {
        CallKeeps(s, key, val, c, AcqPut(0), Put(key, me.id, 0));
      } else if r.err == OK && r.value == "" {
        CallKeeps(s, key, val, c, AcqPut(r.version), Put(key, me.id, r.version));
      } else {
        CallKeeps(s, key, val, c, AcqGet, Get(key));
      }
    case AcqPut(_) =>
      if r.err == OK {
        BecomeKeeps(s, key, val, c, Holding);
      } else {
        CallKeeps(s, key, val, c, if r.err == ErrMaybe then AcqCheck else AcqGet, Get(key));
      }
    case AcqCheck =>
      if r.err == OK && r.value == me.id {
        BecomeKeeps(s, key, val, c, Holding);
      } else {
        CallKeeps(s, key, val, c, AcqGet, Get(key));
      }
    case RelGet =>
      if r.err == OK && r.value == me.id {
        CallKeeps(s, key, val, c, RelPut(r.version), Put(key, "", r.version));
      } else {
        BecomeKeeps(s, key, val, c, Outside);
      }
    case RelPut(_) =>
      if r.err == OK {
        BecomeKeeps(s, key, val, c, Outside);
      } else {
        CallKeeps(s, key, val, c, RelGet, Get(key));
      }
  }

  // ---------------------------------------------------------------- the network and the server

  /** The history of the lock after an event. */
  function NewVal(w: World, key: string, val: seq<string>, e: Event): seq<string>
    requires Enabled(w, e)
  {
    if e.Serve? && w.ops[e.id].request.key == key && Applies(w.ops[e.id].request, Execute(w.store, w.ops[e.id].request).1)
    then val + [w.ops[e.id].request.value] else val
  }

  lemma NetCurrent(s: State, key: string, val: seq<string>, e: Event)
    requires Inv(s, key, val) && Enabled(s.kv, e)
    ensures var val' := NewVal(s.kv, key, val, e);
      && val <= val' && Current(KvHistory.Step(s.kv, e).store, key) == KvState(Last(val'), |val'| - 1)
  {
  }

  lemma NetGets(s: State, key: string, val: seq<string>, e: Event, k: nat)
    requires Inv(s, key, val) && Enabled(s.kv, e) && (e.Invoke? ==> e.request.key != key)
    requires k < |KvHistory.Step(s.kv, e).ops|
    ensures GetsSeen(KvHistory.Step(s.kv, e), key, NewVal(s.kv, key, val, e), k)
  {
    assert k < |s.kv.ops| ==> GetsSeen(s.kv, key, val, k);
    NetCurrent(s, key, val, e);
  }

  lemma NetOwned(s: State, key: string, val: seq<string>, e: Event, k: nat)
    requires Inv(s, key, val) && Enabled(s.kv, e) && (e.Invoke? ==> e.request.key != key)
    requires k < |KvHistory.Step(s.kv, e).ops|
    ensures Owned(s.(kv := KvHistory.Step(s.kv, e)), key, k)
  {
    assert k < |s.kv.ops| ==> Owned(s, key, k);
  }

  /** A write that succeeds is a client's own: it takes a free lock, or frees its own. */
  lemma WriterIs(s: State, key: string, val: seq<string>, e: Event) returns (c: nat)
    requires Inv(s, key, val) && Enabled(s.kv, e)
    requires NewVal(s.kv, key, val, e) != val
    ensures c < |s.clients| && Writes(s.clients[c], e.id)
    ensures Last(val) == (if s.clients[c].pc.AcqPut? then "" else s.clients[c].id)
    ensures Last(NewVal(s.kv, key, val, e)) == (if s.clients[c].pc.AcqPut? then s.clients[c].id else "")
  {
    assert Owned(s, key, e.id);
    c :| c < |s.clients| && Writes(s.clients[c], e.id);
    assert ClientOk(s, key, val, c);
  }

  lemma NetClient(s: State, key: string, val: seq<string>, e: Event, d: nat)
    requires Inv(s, key, val) && Enabled(s.kv, e) && (e.Invoke? ==> e.request.key != key) && d < |s.clients|
    ensures ClientOk(s.(kv := KvHistory.Step(s.kv, e)), key, NewVal(s.kv, key, val, e), d)
  {
    var val' := NewVal(s.kv, key, val, e);
    assert ClientOk(s, key, val, d);
    if val' != val {
      var c := WriterIs(s, key, val, e);
      assert c < d ==> s.clients[c].id != s.clients[d].id;
      assert d < c ==> s.clients[d].id != s.clients[c].id;
      if c != d && Waiting(s.clients[d]) {
        assert c < d ==> s.clients[c].op != s.clients[d].op;
        assert d < c ==> s.clients[d].op != s.clients[c].op;
      }
    } else {
      NetCurrent(s, key, val, e);
    }
  }

  lemma NetKeeps(s: State, key: string, val: seq<string>, m: Move)
    requires Inv(s, key, val) && CanMove(s, key, m) && m.Net?
    ensures Inv(Do(s, key, m), key, NewVal(s.kv, key, val, m.event))
  {
    var e := m.event;
    var val' := NewVal(s.kv, key, val, e);
    var s' := Do(s, key, m);
    OpsStep(s.kv, e);
    NetCurrent(s, key, val, e);
    forall k: nat | k < |s'.kv.ops| ensures GetsSeen(s'.kv, key, val', k) && Owned(s', key, k) {
      NetGets(s, key, val, e, k);
      NetOwned(s, key, val, e, k);
    }
    forall d: nat | d < |s'.clients| ensures ClientOk(s', key, val', d) {
      NetClient(s, key, val, e, d);
    }
  }

  // ---------------------------------------------------------------- runs

  lemma MoveKeeps(s: State, key: string, val: seq<string>, m: Move) returns (val': seq<string>)
    requires Inv(s, key, val) && CanMove(s, key, m)
    ensures Inv(Do(s, key, m), key, val')
  {
    val' := val;
    match m
    case Net(e) =>
      NetKeeps(s, key, val, m);
      val' := NewVal(s.kv, key, val, e);
    case Acquire(c) => CallKeeps(s, key, val, c, AcqGet, Get(key));
    case Release(c) => CallKeeps(s, key, val, c, RelGet, Get(key));
    case Proceed(c) => ProceedKeeps(s, key, val, m);
  }

  lemma {:induction false} Witness(run: seq<State>, key: string) returns (val: seq<string>)
    requires Run(run, key)
    ensures Inv(run[|run| - 1], key, val)
  {
    var k := |run| - 1;
    if k == 0 {
      val := [""];
    } else {
      assert Next(run[k - 1], run[k], key);
      var before := run[..k];
      forall i | 0 < i < |before| ensures Next(before[i - 1], before[i], key) {
        assert Next(run[i - 1], run[i], key);
      }
      var v := Witness(before, key);
      var m :| CanMove(run[k - 1], key, m) && run[k] == Do(run[k - 1], key, m);
      val := MoveKeeps(run[k - 1], key, v, m);
    }
  }

  /** Mutual exclusion: never are two clients between a returned Acquire and their Release,
      and the server names the one that is. */
  lemma MutualExclusion(run: seq<State>, key: string, c: nat, d: nat)
    requires Run(run, key)
    requires var s := run[|run| - 1];
      && c < |s.clients| && d < |s.clients|
      && s.clients[c].pc == Holding && s.clients[d].pc == Holding
    ensures c == d
    ensures Current(run[|run| - 1].kv.store, key).value == run[|run| - 1].clients[c].id
  {
    var val := Witness(run, key);
    var s := run[|run| - 1];
    assert ClientOk(s, key, val, c) && ClientOk(s, key, val, d);
  }

  /** A client that is neither inside Acquire nor inside Release nor between them is not the one
      the server names: a Release that has returned has freed the lock. */
  lemma Released(run: seq<State>, key: string, c: nat)
    requires Run(run, key) && c < |run[|run| - 1].clients| && run[|run| - 1].clients[c].pc == Outside
    ensures Current(run[|run| - 1].kv.store, key).value != run[|run| - 1].clients[c].id
  {
    var val := Witness(run, key);
    assert ClientOk(run[|run| - 1], key, val, c);
  }

  /** The lock changes hands only through a free state: a step that changes its value is a
      client inside Acquire taking a free lock, or a client inside Release, past holding it,
      freeing a lock that names that client. */
  lemma Handover(run: seq<State>, key: string, m: Move) returns (c: nat)
    requires Run(run, key) && CanMove(run[|run| - 1], key, m)
    requires var s := run[|run| - 1];
      Current(Do(s, key, m).kv.store, key) != Current(s.kv.store, key)
    ensures var s := run[|run| - 1];
      && c < |s.clients|
      && var old', new' := Current(s.kv.store, key).value, Current(Do(s, key, m).kv.store, key).value;
         || (s.clients[c].pc.AcqPut? && old' == "" && new' == s.clients[c].id)
         || (s.clients[c].pc.RelPut? && old' == s.clients[c].id && new' == "")
  {
    var val := Witness(run, key);
    var s := run[|run| - 1];
    assert m.Net?;
    NetCurrent(s, key, val, m.event);
    c := WriterIs(s, key, val, m.event);
  }

  // ---------------------------------------------------------------- what clients can do

  lemma Extend(run: seq<State>, key: string, m: Move) returns (more: seq<State>)
    requires Run(run, key) && CanMove(run[|run| - 1], key, m)
    ensures Run(more, key) && run <= more && more[|more| - 1] == Do(run[|run| - 1], key, m)
  {
    more := run + [Do(run[|run| - 1], key, m)];
    forall i | 0 < i < |more| ensures Next(more[i - 1], more[i], key) {
      assert i < |run| ==> Next(run[i - 1], run[i], key);
    }
  }

  /** The call a client waits for is executed and answered, without loss. */
  lemma Answer(run: seq<State>, key: string, c: nat) returns (more: seq<State>)
    requires Run(run, key) && c < |run[|run| - 1].clients| && Waiting(run[|run| - 1].clients[c])
    requires var s := run[|run| - 1];
      s.clients[c].op < |s.kv.ops| && s.kv.ops[s.clients[c].op].phase == Sending && s.kv.ops[s.clients[c].op].first
    ensures Run(more, key) && run <= more
    ensures var s, t := run[|run| - 1], more[|more| - 1];
      var o := s.clients[c].op;
      && t.clients == s.clients && |t.kv.ops| == |s.kv.ops|
      && t.kv.store == Execute(s.kv.store, s.kv.ops[o].request).0
      && t.kv.ops[o].phase.Returned? && t.kv.ops[o].phase.result == Execute(s.kv.store, s.kv.ops[o].request).1
  {
    var o := run[|run| - 1].clients[c].op;
    more := Extend(run, key, Net(Serve(o, true)));
    more := Extend(more, key, Net(KvHistory.Return(o)));
  }

  /** A client takes a free lock, if nobody comes between and nothing is lost. */
  lemma AcquireTakes(run: seq<State>, key: string, c: nat) returns (more: seq<State>)
    requires Run(run, key) && c < |run[|run| - 1].clients| && run[|run| - 1].clients[c].pc == Outside
    requires Current(run[|run| - 1].kv.store, key).value == ""
    ensures Run(more, key) && run <= more
    ensures c < |more[|more| - 1].clients| && more[|more| - 1].clients[c].pc == Holding
    ensures Current(more[|more| - 1].kv.store, key).value == run[|run| - 1].clients[c].id
  {
    hide Run;
    more := Extend(run, key, Acquire(c));
    more := Answer(more, key, c);
    more := Extend(more, key, Proceed(c));
    more := Answer(more, key, c);
    more := Extend(more, key, Proceed(c));
  }

  /** A client that holds the lock frees it, if nothing is lost. */
  lemma ReleaseFrees(run: seq<State>, key: string, c: nat) returns (more: seq<State>)
    requires Run(run, key) && c < |run[|run| - 1].clients| && run[|run| - 1].clients[c].pc == Holding
    ensures Run(more, key) && run <= more
    ensures c < |more[|more| - 1].clients| && more[|more| - 1].clients[c].pc == Outside
    ensures Current(more[|more| - 1].kv.store, key).value == ""
  {
    MutualExclusion(run, key, c, c);
    NonEmpty(run, key, c);
    hide Run;
    more := Extend(run, key, Release(c));
    more := Answer(more, key, c);
    more := Extend(more, key, Proceed(c));
    more := Answer(more, key, c);
    more := Extend(more, key, Proceed(c));
  }

  lemma NonEmpty(run: seq<State>, key: string, c: nat)
    requires Run(run, key) && c < |run[|run| - 1].clients|
    ensures run[|run| - 1].clients[c].id != ""
  {
    var val := Witness(run, key);
  }

  /** An Acquire whose Put took effect although the reply was lost finds out and returns. */
  lemma AcquireRecovers(run: seq<State>, key: string, c: nat) returns (more: seq<State>)
    requires Run(run, key) && c < |run[|run| - 1].clients| && run[|run| - 1].clients[c].pc.AcqPut?
    requires run[|run| - 1].clients[c].op < |run[|run| - 1].kv.ops|
    requires run[|run| - 1].kv.ops[run[|run| - 1].clients[c].op].phase == Lost
    requires Current(run[|run| - 1].kv.store, key).value == run[|run| - 1].clients[c].id
    ensures Run(more, key) && run <= more
    ensures c < |more[|more| - 1].clients| && more[|more| - 1].clients[c].pc == Holding
  {
    LaterVersion(run, key, c);
    hide Run;
    var o := run[|run| - 1].clients[c].op;
    more := Extend(run, key, Net(Resend(o)));
    more := Extend(more, key, Net(Serve(o, true)));
    more := Extend(more, key, Net(KvHistory.Return(o)));
    more := Extend(more, key, Proceed(c));
    more := Answer(more, key, c);
    more := Extend(more, key, Proceed(c));
  }

  /** The lock has moved past the version that the Put asked for. */
  lemma LaterVersion(run: seq<State>, key: string, c: nat)
    requires Run(run, key) && c < |run[|run| - 1].clients| && run[|run| - 1].clients[c].pc.AcqPut?
    requires Current(run[|run| - 1].kv.store, key).value == run[|run| - 1].clients[c].id
    ensures var s := run[|run| - 1];
      && s.clients[c].op < |s.kv.ops| && s.clients[c].id != ""
      && s.kv.ops[s.clients[c].op].request == Put(key, s.clients[c].id, s.clients[c].pc.version)
      && key in s.kv.store && s.kv.store[key].version != s.clients[c].pc.version
  {
    var val := Witness(run, key);
    assert ClientOk(run[|run| - 1], key, val, c);
  }
}
