// src/cache/base/CacheBase.ts: an in-memory cache, a Map from keys to
// elements behind get/set/has/delete/clear/size.
module CacheBase {
  import opened Wrappers

  class CacheBase<I(==), T> {
    var cache: map<I, T>

    constructor ()
      ensures cache == map[]
    {
      cache := map[];
    }

    /** get: the element stored under id, if any. */
    function Get(id: I): (r: Option<T>)
      reads this
      ensures r.Some? <==> id in cache
      ensures r.Some? ==> r.value == cache[id]
    {
      if id in cache then Some(cache[id]) else None
    }

    /** has: true exactly when get finds an element. */
    function Has(id: I): (b: bool)
      reads this
      ensures b <==> Get(id).Some?
    {
      id in cache
    }

    /** size: the number of distinct keys stored. */
    function Size(): (n: nat)
      reads this
      ensures n == |cache.Keys|
    {
      |cache|
    }

    /**
     * set: get(id) then gives value, every other key keeps its element, and
     * the size grows by one exactly when id was not stored.
     */
    method Set(id: I, value: T)
      modifies this
      ensures cache == old(cache)[id := value]
      ensures Get(id) == Some(value)
      ensures forall k :: k != id ==> (Has(k) <==> k in old(cache)) && (Has(k) ==> cache[k] == old(cache)[k])
      ensures Size() == old(Size()) + (if old(Has(id)) then 0 else 1)
    {
      TailleApresAjout(cache, id, value);
      cache := cache[id := value];
    }

    /** delete: id is no longer stored, and every other key keeps its element. */
    method Delete(id: I)
      modifies this
      ensures cache == old(cache) - {id}
      ensures !Has(id)
      ensures forall k :: k != id ==> (Has(k) <==> k in old(cache)) && (Has(k) ==> cache[k] == old(cache)[k])
      ensures Size() == old(Size()) - (if old(Has(id)) then 1 else 0)
    {
      TailleApresRetrait(cache, id);
      cache := cache - {id};
    }

    /** clear: nothing is stored any more. */
    method Clear()
      modifies this
      ensures cache == map[]
      ensures Size() == 0 && forall k :: !Has(k)
    {
      cache := map[];
    }
  }

  /** Storing under a key grows a map by one key exactly when the key is new. */
  lemma TailleApresAjout<I, T>(m: map<I, T>, k: I, v: T)
    ensures |m[k := v]| == |m| + (if k in m then 0 else 1)
  {
    if k in m {
      assert m[k := v].Keys == m.Keys;
    } else {
      assert m[k := v].Keys == m.Keys + {k};
    }
  }

  /** Removing a key shrinks a map by one key exactly when the key was there. */
  lemma TailleApresRetrait<I, T>(m: map<I, T>, k: I)
    ensures |m - {k}| == |m| - (if k in m then 1 else 0)
  {
    if k in m {
      assert (m - {k}).Keys + {k} == m.Keys;
    } else {
      assert (m - {k}).Keys == m.Keys;
    }
  }
}
