// The state machine object: the node mutates its dictionaries in place, one command at a
// time. Every method is tied to the function of module KvStore that specifies it.
module KvMachine {
  import K = KvStore

  class KVStateMachine {
    var store: K.Store
    var sessions: map<int, K.Session>

    ghost function Value(): K.State
      reads this
    {
      K.State(store, sessions)
    }

    constructor ()
      ensures Value() == K.EMPTY
    {
      store, sessions := map[], map[];
    }

    method Apply(c: K.Command) returns (result: string)
      modifies this
      ensures (Value(), result) == K.Apply(old(Value()), c)
      ensures !K.Structured(c) ==> result == "" && store == old(store) && sessions == old(sessions)
      ensures K.Structured(c) && Known(old(sessions), c) ==>
                result == old(sessions)[c.client].result && store == old(store) && sessions == old(sessions)
      ensures K.Structured(c) && !Known(old(sessions), c) ==>
                DictionaryAfter(old(store), c, store, result) && sessions == old(sessions)[c.client := K.Session(c.req, result)]
    {
      if !K.Structured(c) {
        return "";
      }
      if c.client in sessions && c.req <= sessions[c.client].req {
        return sessions[c.client].result;
      }
      result := Execute(c);
      sessions := sessions[c.client := K.Session(c.req, result)];
    }

    // Its client has made this request or a later one.
    static predicate Known(sessions: map<int, K.Session>, c: K.Command) {
      c.client in sessions && c.req <= sessions[c.client].req
    }

    // What an operation does to the dictionary, entry by entry, and what it answers.
    static ghost predicate DictionaryAfter(before: K.Store, c: K.Command, after: K.Store, result: string) {
      var held := if c.key in before then before[c.key] else "";
      var writes := c.op == K.Put || (c.op == K.Cas && held == c.expected);
      && (forall k :: k in after <==> k in before || (writes && k == c.key))
      && (forall k | k in after :: after[k] == if writes && k == c.key then c.value else before[k])
      && result == (if c.op == K.Get then held else if writes then "ok" else if c.op == K.Cas then "fail" else "")
    }

    method Execute(c: K.Command) returns (result: string)
      modifies this`store
      ensures (store, result) == K.Execute(old(store), c)
      ensures DictionaryAfter(old(store), c, store, result)
    {
      if c.op == K.Put {
        store := store[c.key := c.value];
        return "ok";
      }
      if c.op == K.Get {
        return K.Lookup(store, c.key);
      }
      if c.op == K.Cas {
        if K.Lookup(store, c.key) == c.expected {
          store := store[c.key := c.value];
          return "ok";
        }
        return "fail";
      }
      return "";
    }

    method ApplyRead(c: K.Command) returns (result: string)
      ensures result == K.Read(store, c)
    {
      if c.op == K.Get {
        return K.Lookup(store, c.key);
      }
      return "";
    }

    method Capture() returns (image: K.State)
      ensures image == Value()
    {
      return K.State(store, sessions);
    }

    method Restore(image: K.State)
      modifies this
      ensures Value() == image
    {
      store, sessions := image.store, image.sessions;
    }
  }
}
