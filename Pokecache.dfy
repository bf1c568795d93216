/** The response cache the command layer talks to through Add and Get. Only its
    sequential key/value behaviour is modelled: its expiry and locking live in a
    package that is not part of this model. */
module Pokecache {

  newtype byte = b: int | 0 <= b < 256

  /** A response body as it came off the wire. */
  type Bytes = seq<byte>

  class Cache {
    /** The cached bodies, keyed by request URL. */
    var store: map<string, Bytes>

    constructor ()
      ensures store == map[]
    {
      store := map[];
    }

    /** Inserts or replaces the body cached under key. */
    method Add(key: string, body: Bytes)
      modifies this
      ensures store == old(store)[key := body]
    {
      store := store[key := body];
    }

    /** Looks key up; found tells a hit (possibly of an empty body) from a miss. */
    method Get(key: string) returns (body: Bytes, found: bool)
      ensures found <==> key in store
      ensures found ==> body == store[key]
    {
      found := key in store;
      body := if found then store[key] else [];
    }
  }

  /** The scenarios the cache is expected to satisfy, checked against its contracts. */
  method CacheScenarios()
  {
    var c := new Cache();
    var b, hit := c.Get("k");
    assert !hit;
    c.Add("k", [118, 49]);
    b, hit := c.Get("k");
    assert hit && b == [118, 49];
    c.Add("k", [118, 50]);
    b, hit := c.Get("k");
    assert hit && b == [118, 50];
    c.Add("a", [1]);
    c.Add("b", [2]);
    b, hit := c.Get("a");
    assert hit && b == [1];
    b, hit := c.Get("b");
    assert hit && b == [2];
    c.Add("e", []);
    b, hit := c.Get("e");
    assert hit && b == [];
  }
}
