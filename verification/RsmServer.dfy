/** The server side of Submit as an object: the reader of apply messages and the waiting
    threads share the map of registered channels. */
module RsmServer {
  import opened KvStore
  import opened RaftLog
  import opened Rsm

  /** What the service passes to Raft's Snapshot after a message. */
  datatype Saving = NoSave | SaveAt(index: nat, data: Store)

  lemma DropKey(m: map<nat, nat>, k: nat)
    requires k in m
    ensures (m - {k}).Values + {m[k]} == m.Values && |m - {k}| < |m|
  {
    forall v | v in m.Values ensures v in (m - {k}).Values + {m[k]} {
      var i :| i in m && m[i] == v;
      assert i != k ==> i in m - {k} && (m - {k})[i] == v;
    }
    assert (m - {k}).Keys == m.Keys - {k};
    assert |m.Keys - {k}| == |m.Keys| - 1;
  }

  lemma ShutOne(threads: seq<Thread>, closed: set<nat>, j: nat)
    ensures Shut(threads, {}) == threads
    ensures |Shut(threads, closed)| == |threads|
    ensures Shut(threads, closed + {j}) ==
      var t := Shut(threads, closed);
      if j < |threads| then t[j := t[j].(channel := Closed)] else t
  {
  }

  class Server {
    ghost var position: nat
    ghost var queue: seq<ApplyMsg>
    var store: Store
    var pending: map<nat, nat>
    var threads: seq<Thread>

    ghost function View(): Service
      reads this
    {
      Service(store, position, queue, pending, threads)
    }

    /** DoOp of the replicated store. */
    method DoOp(request: Request) returns (reply: Reply)
      modifies this`store
      ensures (store, reply) == Execute(old(store), request)
    {
      match request
      case Get(key) =>
        if key !in store {
          reply := GetReply("", 0, ErrNoKey);
        } else {
          reply := GetReply(store[key].value, store[key].version, OK);
        }
      case Put(key, value, version) =>
        if key !in store {
          if version == 0 {
            store := store[key := Item(value, 1)];
            reply := PutReply(OK);
          } else {
            reply := PutReply(ErrNoKey);
          }
        } else if store[key].version != version {
          reply := PutReply(ErrVersion);
        } else {
          store := store[key := Item(value, store[key].version + 1)];
          reply := PutReply(OK);
        }
    }

    /** One turn of the reader: a command is executed and its thread woken, a snapshot replaces
        the store; after an operation the service saves its own state if Raft's has grown. */
    method ReadMessage(m: ApplyMsg, grown: bool) returns (saving: Saving)
      modifies this`store, this`position, this`pending, this`threads
      ensures View() == OnMessage(old(View()), m)
      ensures saving == if m.CommandMsg? && m.command.Do? && grown then SaveAt(position, store) else NoSave
    {
      saving := NoSave;
      position := m.index;
      if m.SnapshotMsg? {
        store := m.data;
        return;
      }
      if !m.command.Do? {
        return;
      }
      var result := DoOp(m.command.request);
      if m.index in pending {
        var j := pending[m.index];
        pending := pending - {m.index};
        if j < |threads| {
          threads := threads[j := threads[j].(channel := Full(Notification(m.command.id, m.command.term, result)))];
        }
      }
      if grown {
        saving := SaveAt(m.index, store);
      }
    }

    method RegisterAt(index: nat, startTerm: nat, id: int) returns (j: nat)
      modifies this`pending, this`threads
      ensures j == old(|threads|)
      ensures View() == Registered(old(View()), index, startTerm, id)
    {
      j := |threads|;
      threads := threads + [Thread(index, startTerm, id, Empty, Waiting)];
      pending := pending[index := j];
    }

    /** One turn of the loop in Submit. */
    method PollOnce(j: nat, lostLeadership: bool)
      requires j < |threads|
      modifies this`pending, this`threads
      ensures View() == OnPoll(old(View()), j, lostLeadership)
    {
      var t := threads[j];
      var outcome := Waiting;
      match t.channel {
        case Closed => outcome := WrongLeader;
        case Full(n) =>
          if n.term != t.startTerm || n.id != t.id {
            outcome := WrongLeader;
          } else {
            outcome := Ok(n.result);
          }
        case Empty =>
          if lostLeadership {
            outcome := WrongLeader;
          } else {
            return;
          }
      }
      threads := threads[j := t.(outcome := outcome)];
      pending := pending - {t.index};
    }

    /** The apply channel was closed: close every registered channel. */
    method CloseRegistered()
      modifies this`pending, this`threads
      ensures View() == CloseAll(old(View()))
    {
      hide Shut;
      ghost var before := threads;
      ghost var all := pending.Values;
      ghost var closed: set<nat> := {};
      ShutOne(before, {}, 0);
      while pending != map[]
        invariant threads == Shut(before, closed)
        invariant closed + pending.Values == all
        decreases |pending|
      {
        var index :| index in pending;
        var j := pending[index];
        DropKey(pending, index);
        pending := pending - {index};
        ShutOne(before, closed, j);
        closed := closed + {j};
        if j < |threads| {
          threads := threads[j := threads[j].(channel := Closed)];
        }
      }
    }
  }
}
