// KVMapper: the loops that bind every KV proxy to the context of a request, and
// unbind it when the event or the Express context goes back to its pool.
module KVMappers {
  import opened Base
  import opened Objects

  class NativeKVProxy {
    var ioContext: Option<Id>

    constructor ()
      ensures ioContext == None
    {
      ioContext := None;
    }
  }

  class KVMapper {
    const kvProxyMap: map<string, NativeKVProxy>
    const kvBackingKeys: seq<string>

    ghost predicate Valid() {
      && (forall k :: k in kvProxyMap <==> k in kvBackingKeys)
      && (forall j, k :: j in kvProxyMap && k in kvProxyMap && j != k ==> kvProxyMap[j] != kvProxyMap[k])
    }

    ghost function Proxies(): set<NativeKVProxy> { kvProxyMap.Values }

    // All its proxies are bound to one context, or to none.
    ghost predicate BoundTo(c: Option<Id>)
      reads Proxies()
    {
      forall k :: k in kvProxyMap ==> kvProxyMap[k].ioContext == c
    }

    constructor (m: map<string, NativeKVProxy>, keys: seq<string>)
      requires forall k :: k in m <==> k in keys
      requires forall j, k :: j in m && k in m && j != k ==> m[j] != m[k]
      ensures Valid() && kvProxyMap == m && kvBackingKeys == keys
    {
      kvProxyMap, kvBackingKeys := m, keys;
    }

    // The loop of WithIOContext, and with None that of Reset.
    method Bind(c: Option<Id>)
      modifies Proxies()
      ensures BoundTo(c)
    {
      var left := kvProxyMap.Keys;
      while left != {}
        invariant left <= kvProxyMap.Keys
        invariant forall k :: k in kvProxyMap && k !in left ==> kvProxyMap[k].ioContext == c
      {
        var k :| k in left;
        kvProxyMap[k].ioContext := c;
        left := left - {k};
      }
    }

    method WithIOContext(c: Id)
      modifies Proxies()
      ensures BoundTo(Some(c))
    {
      Bind(Some(c));
    }

    method Reset()
      modifies Proxies()
      ensures BoundTo(None)
    {
      Bind(None);
    }

    method Get(key: string) returns (p: NativeKVProxy?)
      ensures key in kvProxyMap ==> p == kvProxyMap[key]
      ensures key !in kvProxyMap ==> p == null
    {
      if key in kvProxyMap { return kvProxyMap[key]; }
      return null;
    }

    method Has(key: string) returns (has: bool)
      requires Valid()
      ensures has <==> key in kvProxyMap
    {
      var i := 0;
      while i < |kvBackingKeys|
        invariant 0 <= i <= |kvBackingKeys| && key !in kvBackingKeys[..i]
      {
        if kvBackingKeys[i] == key { return true; }
        assert kvBackingKeys[..i + 1] == kvBackingKeys[..i] + [kvBackingKeys[i]];
        i := i + 1;
      }
      assert kvBackingKeys[..i] == kvBackingKeys;
      return false;
    }
  }
}
