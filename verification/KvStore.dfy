/** The versioned key/value store and its two operations. */
module KvStore {

  datatype Err = OK | ErrNoKey | ErrVersion | ErrMaybe | ErrWrongLeader

  datatype Request =
    | Get(key: string)
    | Put(key: string, value: string, version: nat)

  datatype Reply =
    | GetReply(value: string, version: nat, err: Err)
    | PutReply(err: Err)

  datatype Item = Item(value: string, version: nat)

  type Store = map<string, Item>

  /** One operation on the store, as the server executes it under its lock. */
  function Execute(store: Store, request: Request): (Store, Reply) {
    match request
    case Get(key) =>
      if key !in store then (store, GetReply("", 0, ErrNoKey))
      else (store, GetReply(store[key].value, store[key].version, OK))
    case Put(key, value, version) =>
      if key !in store then
        if version == 0 then (store[key := Item(value, 1)], PutReply(OK))
        else (store, PutReply(ErrNoKey))
      else if store[key].version != version then (store, PutReply(ErrVersion))
      else (store[key := Item(value, store[key].version + 1)], PutReply(OK))
  }

  /** A key that is there has been written, and counts its writes from 1. */
  predicate Positive(store: Store) {
    forall key | key in store :: store[key].version > 0
  }

  lemma ExecutePositive(store: Store, request: Request)
    requires Positive(store)
    ensures Positive(Execute(store, request).0)
  {
  }

  /** What the clerk reports: ErrVersion on a resend may hide an earlier success. */
  function ClerkResult(first: bool, reply: Reply): Reply {
    if reply == PutReply(ErrVersion) && !first then PutReply(ErrMaybe) else reply
  }
}
