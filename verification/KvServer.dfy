/** The unreplicated server object, and the retry loops of both kinds of clerk. */
module KvServer {
  import opened KvStore

  class KVServer {
    var store: Store

    constructor ()
      ensures store == map[]
    {
      store := map[];
    }

    method Get(key: string) returns (reply: Reply)
      ensures reply == Execute(store, Request.Get(key)).1
    {
      if key !in store {
        return GetReply("", 0, ErrNoKey);
      }
      reply := GetReply(store[key].value, store[key].version, OK);
    }

    method Put(key: string, value: string, version: nat) returns (reply: Reply)
      modifies this
      ensures (store, reply) == Execute(old(store), Request.Put(key, value, version))
    {
      if key !in store {
        if version == 0 {
          store := store[key := Item(value, 1)];
          reply := PutReply(OK);
        } else {
          reply := PutReply(ErrNoKey);
        }
        return;
      }
      if store[key].version != version {
        return PutReply(ErrVersion);
      }
      store := store[key := Item(value, store[key].version + 1)];
      reply := PutReply(OK);
    }
  }

  /** What one remote call gives the clerk. */
  datatype CallResult = Failed | Answered(err: Err)

  /** Calls that make a clerk try again: no answer, or the answer of a server that does not lead. */
  predicate Retries(c: CallResult) {
    c == Failed || c.err == ErrWrongLeader
  }

  /** The server asked in turn `k`, starting with `start`. */
  function Turn(start: nat, k: nat, servers: nat): (r: nat)
    requires start < servers
    ensures r < servers
  {
    if k == 0 then start else (Turn(start, k - 1, servers) + 1) % servers
  }

  /** A clerk of the replicated store: remembers the server that answered last. */
  class Clerk {
    const servers: nat
    var leader: nat

    ghost predicate Valid()
      reads this
    {
      leader < servers
    }

    constructor (servers: nat)
      requires servers > 0
      ensures Valid() && this.servers == servers && leader == 0
    {
      this.servers := servers;
      leader := 0;
    }

    /** The loop of Put over the results of its calls: it stops at the first call that does not
        ask for a retry, reports what that call answered, and turns ErrVersion into ErrMaybe
        exactly when an earlier call may have had an effect. The servers are asked in turn. */
    method Put(calls: seq<CallResult>) returns (err: Err, k: nat)
      requires Valid() && exists i :: 0 <= i < |calls| && !Retries(calls[i])
      modifies this
      ensures Valid() && k < |calls| && !Retries(calls[k])
      ensures forall i | 0 <= i < k :: Retries(calls[i])
      ensures err == if calls[k].err == ErrVersion && k > 0 then ErrMaybe else calls[k].err
      ensures leader == Turn(old(leader), k, servers)
    {
      k := 0;
      var first := true;
      var next := leader;
      while Retries(calls[k])
        invariant k < |calls| && next < servers && (first <==> k == 0)
        invariant forall i | 0 <= i < k :: Retries(calls[i])
        invariant next == Turn(leader, k, servers)
        decreases |calls| - k
      {
        next := (next + 1) % servers;
        first := false;
        assert exists i :: k < i < |calls| && !Retries(calls[i]);
        k := k + 1;
      }
      leader := next;
      if calls[k].err == ErrVersion {
        if first {
          return ErrVersion, k;
        } else {
          return ErrMaybe, k;
        }
      }
      err := calls[k].err;
    }
  }
}
