/**
 * The two-tier key-value cache facade `YYCache`.
 *
 * The memory tier and the disk tier are each an opaque finite map from key
 * to object; their own eviction, trimming and storage layout are not part of
 * this model. The facade reads the memory tier first and falls back to the
 * disk tier, writes through to both tiers and removes from both tiers.
 * A `nil` key or object is `None`.
 */
module Cache {
  import opened Wrappers

  /** A snapshot of both tiers. */
  datatype Tiers<V> = Tiers(memory: map<string, V>, disk: map<string, V>)
  {
    /** What a reader of the facade sees: a memory entry shadows a disk entry. */
    function View(): map<string, V>
    {
      disk + memory
    }
  }

  /** `containsObjectForKey:` on a snapshot. */
  function Contains<V>(t: Tiers<V>, key: Option<string>): (b: bool)
    ensures b <==> key.Some? && key.value in t.View()
  {
    key.Some? && (key.value in t.memory || key.value in t.disk)
  }

  /** `objectForKey:` on a snapshot: memory tier first, then disk tier. */
  function Get<V>(t: Tiers<V>, key: Option<string>): (r: Option<V>)
    ensures r.Some? <==> key.Some? && key.value in t.View()
    ensures r.Some? ==> r.value == t.View()[key.value]
    ensures r.Some? <==> Contains(t, key)
  {
    if key.None? then None
    else if key.value in t.memory then Some(t.memory[key.value])
    else if key.value in t.disk then Some(t.disk[key.value])
    else None
  }

  /** The state after `objectForKey:`: a disk hit is copied into the memory tier. */
  function Promote<V>(t: Tiers<V>, key: Option<string>): (r: Tiers<V>)
    ensures r.disk == t.disk
    ensures r.View() == t.View()
    ensures key.Some? && key.value in t.View() ==> key.value in r.memory
  {
    if key.Some? && key.value !in t.memory && key.value in t.disk
    then Tiers(t.memory[key.value := t.disk[key.value]], t.disk)
    else t
  }

  /** The state after `removeObjectForKey:`. */
  function Remove<V>(t: Tiers<V>, key: Option<string>): (r: Tiers<V>)
    ensures key.None? ==> r == t
    ensures key.Some? ==> r.View() == t.View() - {key.value}
    ensures key.Some? ==> r.memory == t.memory - {key.value} && r.disk == t.disk - {key.value}
  {
    if key.None? then t
    else Tiers(t.memory - {key.value}, t.disk - {key.value})
  }

  /** The state after `setObject:forKey:`. */
  function Set<V>(t: Tiers<V>, obj: Option<V>, key: Option<string>): (r: Tiers<V>)
    ensures key.None? ==> r == t
    ensures key.Some? && obj.Some? ==> r.View() == t.View()[key.value := obj.value]
    ensures key.Some? && obj.None? ==> r.View() == t.View() - {key.value}
    ensures key.Some? && obj.Some? ==> r.memory == t.memory[key.value := obj.value] && r.disk == t.disk[key.value := obj.value]
  {
    if key.None? then t
    else if obj.None? then Remove(t, key)
    else Tiers(t.memory[key.value := obj.value], t.disk[key.value := obj.value])
  }

  /** The state after `removeAllObjects`. */
  function RemoveAll<V>(t: Tiers<V>): (r: Tiers<V>)
    ensures r.View() == map[]
  {
    Tiers(map[], map[])
  }

  /** `a` holds some of the entries of `b`, with the same objects. */
  ghost predicate SubMap<V>(a: map<string, V>, b: map<string, V>)
  {
    forall k :: k in a ==> k in b && a[k] == b[k]
  }

  /** What an asynchronous access method hands to its block. */
  datatype Reply<V> =
    | ContainsReply(key: Option<string>, contains: bool)
    | ObjectReply(key: Option<string>, found: Option<V>)
    | SetReply
    | RemoveReply(key: Option<string>)
    | RemoveAllReply

  /** The calls made to the progress and end blocks of a progressive clear. */
  datatype ClearEvent = Progress(removedCount: int, totalCount: int) | End(error: bool)

  /** The progress calls after `removed` of `total` disk entries are gone, one per entry. */
  function ProgressEvents(total: int, removed: nat): (r: seq<ClearEvent>)
    ensures |r| == removed
    ensures forall i :: 0 <= i < removed ==> r[i] == Progress(i + 1, total)
  {
    if removed == 0 then [] else ProgressEvents(total, removed - 1) + [Progress(removed, total)]
  }

  lemma ProgressCountsUp(total: int, removed: nat, i: nat, j: nat)
    requires i < j < removed
    ensures ProgressEvents(total, removed)[i].removedCount < ProgressEvents(total, removed)[j].removedCount
  {
  }

  /** `Set` then `Get` of the same non-nil key gives back the object that was set. */
  lemma SetThenGet<V>(t: Tiers<V>, obj: V, key: string)
    ensures Get(Set(t, Some(obj), Some(key)), Some(key)) == Some(obj)
    ensures Contains(Set(t, Some(obj), Some(key)), Some(key))
  {
  }

  /** `Set` of a non-nil key changes no other key. */
  lemma SetFrame<V>(t: Tiers<V>, obj: Option<V>, key: Option<string>, other: string)
    requires key != Some(other)
    ensures Get(Set(t, obj, key), Some(other)) == Get(t, Some(other))
  {
  }

  /** Setting a `nil` object is exactly a removal. */
  lemma SetNilIsRemove<V>(t: Tiers<V>, key: Option<string>)
    ensures Set(t, None, key) == Remove(t, key)
  {
  }

  /** After a removal the key is absent and every other key keeps its object. */
  lemma RemoveFrame<V>(t: Tiers<V>, key: string, other: string)
    ensures !Contains(Remove(t, Some(key)), Some(key))
    ensures Get(Remove(t, Some(key)), Some(key)) == None
    ensures other != key ==> Get(Remove(t, Some(key)), Some(other)) == Get(t, Some(other))
  {
  }

  /** Removing twice is removing once. */
  lemma RemoveIdempotent<V>(t: Tiers<V>, key: Option<string>)
    ensures Remove(Remove(t, key), key) == Remove(t, key)
  {
    if key.Some? {
      assert Remove(t, key).memory - {key.value} == Remove(t, key).memory;
      assert Remove(t, key).disk - {key.value} == Remove(t, key).disk;
    }
  }

  /** After `removeAllObjects` no key is contained. */
  lemma RemoveAllEmpties<V>(t: Tiers<V>, key: Option<string>)
    ensures !Contains(RemoveAll(t), key)
    ensures Get(RemoveAll(t), key) == None
  {
  }

  /** A read never changes what any key maps to. */
  lemma PromoteKeepsObjects<V>(t: Tiers<V>, key: Option<string>, other: Option<string>)
    ensures Get(Promote(t, key), other) == Get(t, other)
    ensures Contains(Promote(t, key), other) == Contains(t, other)
  {
  }

  class YYCache<V> {
    /** The name of the cache. */
    const name: string
    /** The memory tier. */
    var memoryCache: map<string, V>
    /** The disk tier. */
    var diskCache: map<string, V>

    function Snapshot(): Tiers<V>
      reads this
    {
      Tiers(memoryCache, diskCache)
    }

    /**
     * `initWithName:`. The disk tier opens whatever an earlier run left in the
     * directory, given here as `persisted`; the memory tier starts empty.
     */
    constructor (name: string, persisted: map<string, V>)
      ensures this.name == name
      ensures memoryCache == map[] && diskCache == persisted
    {
      this.name := name;
      memoryCache := map[];
      diskCache := persisted;
    }

    method ContainsObjectForKey(key: Option<string>) returns (contains: bool)
      ensures contains == Contains(Snapshot(), key)
      ensures contains <==> key.Some? && key.value in Snapshot().View()
      ensures key.None? ==> !contains
    {
      contains := key.Some? && (key.value in memoryCache || key.value in diskCache);
    }

    method ObjectForKey(key: Option<string>) returns (found: Option<V>)
      modifies this`memoryCache
      ensures found == Get(old(Snapshot()), key)
      ensures Snapshot() == Promote(old(Snapshot()), key)
    {
      if key.None? {
        return None;
      }
      var k := key.value;
      if k in memoryCache {
        found := Some(memoryCache[k]);
      } else if k in diskCache {
        found := Some(diskCache[k]);
        memoryCache := memoryCache[k := diskCache[k]];
      } else {
        found := None;
      }
    }

    method SetObject(obj: Option<V>, key: Option<string>)
      modifies this
      ensures Snapshot() == Set(old(Snapshot()), obj, key)
    {
      if key.None? {
        return;
      }
      if obj.None? {
        RemoveObjectForKey(key);
        return;
      }
      memoryCache := memoryCache[key.value := obj.value];
      diskCache := diskCache[key.value := obj.value];
    }

    method RemoveObjectForKey(key: Option<string>)
      modifies this
      ensures Snapshot() == Remove(old(Snapshot()), key)
    {
      if key.None? {
        return;
      }
      memoryCache := memoryCache - {key.value};
      diskCache := diskCache - {key.value};
    }

    method RemoveAllObjects()
      modifies this
      ensures Snapshot() == RemoveAll(old(Snapshot()))
    {
      memoryCache := map[];
      diskCache := map[];
    }

    /** `containsObjectForKey:withBlock:`; `block` says whether a block was passed. */
    method ContainsObjectForKeyWithBlock(key: Option<string>, block: bool) returns (reply: Option<Reply<V>>)
      ensures reply == if block then Some(ContainsReply(key, Contains(Snapshot(), key))) else None
    {
      var contains := ContainsObjectForKey(key);
      reply := if block then Some(ContainsReply(key, contains)) else None;
    }

    /** `objectForKey:withBlock:`. */
    method ObjectForKeyWithBlock(key: Option<string>, block: bool) returns (reply: Option<Reply<V>>)
      modifies this`memoryCache
      ensures Snapshot() == Promote(old(Snapshot()), key)
      ensures reply == if block then Some(ObjectReply(key, Get(old(Snapshot()), key))) else None
    {
      var found := ObjectForKey(key);
      reply := if block then Some(ObjectReply(key, found)) else None;
    }

    /** `setObject:forKey:withBlock:`. */
    method SetObjectWithBlock(obj: Option<V>, key: Option<string>, block: bool) returns (reply: Option<Reply<V>>)
      modifies this
      ensures Snapshot() == Set(old(Snapshot()), obj, key)
      ensures reply == if block then Some(SetReply) else None
    {
      SetObject(obj, key);
      reply := if block then Some(SetReply) else None;
    }

    /** `removeObjectForKey:withBlock:`. */
    method RemoveObjectForKeyWithBlock(key: Option<string>, block: bool) returns (reply: Option<Reply<V>>)
      modifies this
      ensures Snapshot() == Remove(old(Snapshot()), key)
      ensures reply == if block then Some(RemoveReply(key)) else None
    {
      RemoveObjectForKey(key);
      reply := if block then Some(RemoveReply(key)) else None;
    }

    /** `removeAllObjectsWithBlock:`; its block may not be nil. */
    method RemoveAllObjectsWithBlock() returns (reply: Reply<V>)
      modifies this
      ensures Snapshot() == RemoveAll(old(Snapshot()))
      ensures reply == RemoveAllReply
    {
      RemoveAllObjects();
      reply := RemoveAllReply;
    }

    /**
     * `removeAllObjectsWithProgressBlock:endBlock:`. The memory tier is
     * cleared at once; the disk tier is cleared entry by entry with a
     * progress call after each. `failAfter` is the disk storage's behaviour:
     * `Some(n)` means that it fails once `n` entries have been removed.
     */
    method RemoveAllObjectsWithProgress(failAfter: Option<nat>) returns (events: seq<ClearEvent>, removed: nat)
      modifies this
      ensures memoryCache == map[]
      ensures SubMap(diskCache, old(diskCache))
      ensures removed + |diskCache| == |old(diskCache)|
      ensures events == ProgressEvents(|old(diskCache)|, removed) + [End(diskCache != map[])]
      ensures failAfter.None? ==> diskCache == map[]
      ensures failAfter.Some? ==> removed == if failAfter.value < |old(diskCache)| then failAfter.value else |old(diskCache)|
    {
      memoryCache := map[];
      var total := |diskCache|;
      removed := 0;
      events := [];
      while diskCache != map[] && (failAfter.None? || removed < failAfter.value)
        invariant memoryCache == map[]
        invariant SubMap(diskCache, old(diskCache))
        invariant removed + |diskCache| == total
        invariant failAfter.Some? ==> removed <= failAfter.value
        invariant events == ProgressEvents(total, removed)
        decreases |diskCache|
      {
        var k :| k in diskCache;
        assert (diskCache - {k}).Keys == diskCache.Keys - {k};
        diskCache := diskCache - {k};
        removed := removed + 1;
        events := events + [Progress(removed, total)];
      }
      events := events + [End(diskCache != map[])];
    }
  }
}
