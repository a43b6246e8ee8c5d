/** The key-value server with its table of replies already given, and the clerk's retry loops. */
module KvServer {
  import opened Locality

  /** What the server holds: the store, and the reply to each write that has not been cleared yet. */
  datatype Server = Server(data: Store, cache: map<int, string>)

  /** A write: the first time it changes the store and its reply is kept; after that the kept reply is repeated. */
  function Write(s: Server, key: string, value: string, id: int): (Server, string) {
    if id in s.cache then (s, s.cache[id])
    else (Server(s.data[key := value], s.cache[id := Lookup(s.data, key)]), Lookup(s.data, key))
  }

  function HandlePut(s: Server, key: string, value: string, id: int): (Server, string) {
    Write(s, key, value, id)
  }

  function HandleAppend(s: Server, key: string, value: string, id: int): (Server, string) {
    Write(s, key, Lookup(s.data, key) + value, id)
  }

  function HandleClear(s: Server, id: int): Server {
    s.(cache := s.cache - {id})
  }

  class KVServer {
    var data: Store
    var opCache: map<int, string>

    ghost function View(): Server
      reads this
    {
      Server(data, opCache)
    }

    constructor ()
      ensures View() == Server(map[], map[])
    {
      data, opCache := map[], map[];
    }

    method Clear(id: int)
      modifies this`opCache
      ensures View() == HandleClear(old(View()), id)
    {
      opCache := opCache - {id};
    }

    method Get(key: string) returns (value: string)
      ensures value == Lookup(data, key)
    {
      value := if key in data then data[key] else "";
    }

    method Put(key: string, value: string, id: int) returns (reply: string)
      modifies this
      ensures (View(), reply) == HandlePut(old(View()), key, value, id)
    {
      if id in opCache {
        return opCache[id];
      }
      reply := Get(key);
      opCache := opCache[id := reply];
      data := data[key := value];
    }

    method Append(key: string, value: string, id: int) returns (reply: string)
      modifies this
      ensures (View(), reply) == HandleAppend(old(View()), key, value, id)
    {
      if id in opCache {
        return opCache[id];
      }
      reply := Get(key);
      opCache := opCache[id := reply];
      data := data[key := reply + value];
    }
  }

  // ---- clerks ----

  /** A failed call: the request never arrived, or it was handled and the reply was lost. */
  datatype Failure = LostRequest | LostReply

  /** A clerk's Get, after any number of failed calls. */
  method ClerkGet(kv: KVServer, key: string, failures: seq<Failure>) returns (value: string)
    ensures value == Lookup(kv.data, key)
  {
    for i := 0 to |failures| {
      if failures[i] == LostReply {
        var _ := kv.Get(key);
      }
    }
    value := kv.Get(key);
  }

  /** A clerk's Put or Append with a number of its own: however many calls fail, and in whichever way, the store
      changes once, the value returned is the one just before, and nothing is left in the server's table. */
  method ClerkPutAppend(kv: KVServer, append: bool, key: string, value: string, id: int,
                        failures: seq<Failure>, clearFailures: seq<Failure>) returns (reply: string)
    requires id !in kv.opCache
    modifies kv
    ensures reply == old(Lookup(kv.data, key))
    ensures kv.data == old(kv.data)[key := if append then old(Lookup(kv.data, key)) + value else value]
    ensures kv.opCache == old(kv.opCache)
  {
    ghost var before := kv.View();
    ghost var (after, first) := if append then HandleAppend(before, key, value, id) else HandlePut(before, key, value, id);
    for i := 0 to |failures|
      invariant kv.View() == before || kv.View() == after
    {
      if failures[i] == LostReply {
        if append {
          var _ := kv.Append(key, value, id);
        } else {
          var _ := kv.Put(key, value, id);
        }
      }
    }
    if append {
      reply := kv.Append(key, value, id);
    } else {
      reply := kv.Put(key, value, id);
    }
    for i := 0 to |clearFailures|
      invariant kv.View() == after || kv.View() == HandleClear(after, id)
    {
      if clearFailures[i] == LostReply {
        kv.Clear(id);
      }
    }
    kv.Clear(id);
  }
}
