/** The shared key-value store, with one order record per key and an optional
    time-to-live. Every command is recorded in a ghost log so that callers can
    state how many reads and writes they issue. */
module Redis {
  import opened Wrappers
  import opened OrderModel

  /** A stored record and the TTL it was written with, if any. */
  datatype Entry = Entry(record: OrderRecord, ttlSeconds: Option<int>)

  datatype Command = GetCmd(key: string) | SetCmd(key: string) | DeleteCmd(key: string) | ExpireCmd(key: string)

  /** How the backend answers a SET: it stores the value, answers that it did
      not, or raises an error. */
  datatype SetOutcome = Stored | NotStored | Raised

  datatype StoreError = BackendError

  class RedisStore {
    var entries: map<string, Entry>
    ghost var log: seq<Command>

    constructor ()
      ensures entries == map[] && log == []
    {
      entries := map[];
      log := [];
    }

    /** GET: the record under `key`, if any; `fails` stands for a backend error. */
    method Get(key: string, fails: bool) returns (r: Result<Option<OrderRecord>, StoreError>)
      modifies this
      ensures entries == old(entries)
      ensures log == old(log) + [GetCmd(key)]
      ensures fails ==> r == Err(BackendError)
      ensures !fails ==> r == Ok(if key in entries then Some(entries[key].record) else None)
    {
      log := log + [GetCmd(key)];
      if fails {
        r := Err(BackendError);
      } else if key in entries {
        r := Ok(Some(entries[key].record));
      } else {
        r := Ok(None);
      }
    }

    /** SET, with an expiry when `ttlSeconds` is given; a SET without one
        leaves the key without expiry. */
    method Set(key: string, record: OrderRecord, ttlSeconds: Option<int>, outcome: SetOutcome)
      returns (r: Result<bool, StoreError>)
      modifies this
      ensures log == old(log) + [SetCmd(key)]
      ensures entries == if outcome == Stored then old(entries)[key := Entry(record, ttlSeconds)] else old(entries)
      ensures r == match outcome
        case Stored => Ok(true)
        case NotStored => Ok(false)
        case Raised => Err(BackendError)
    {
      log := log + [SetCmd(key)];
      match outcome
      case Stored =>
        entries := entries[key := Entry(record, ttlSeconds)];
        r := Ok(true);
      case NotStored =>
        r := Ok(false);
      case Raised =>
        r := Err(BackendError);
    }

    /** DEL: removes the key and answers whether it existed. */
    method Delete(key: string, fails: bool) returns (r: Result<bool, StoreError>)
      modifies this
      ensures log == old(log) + [DeleteCmd(key)]
      ensures fails ==> entries == old(entries) && r == Err(BackendError)
      ensures !fails ==> entries == old(entries) - {key} && r == Ok(key in old(entries))
    {
      log := log + [DeleteCmd(key)];
      if fails {
        r := Err(BackendError);
      } else {
        r := Ok(key in entries);
        entries := entries - {key};
      }
    }

    /** The TTL of `key` elapses: an entry written with a TTL disappears. */
    method Expire(key: string)
      modifies this
      ensures log == old(log) + [ExpireCmd(key)]
      ensures entries ==
        if key in old(entries) && old(entries)[key].ttlSeconds.Some? then old(entries) - {key} else old(entries)
    {
      log := log + [ExpireCmd(key)];
      if key in entries && entries[key].ttlSeconds.Some? {
        entries := entries - {key};
      }
    }
  }
}
