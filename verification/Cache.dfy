/** The in-memory output cache: entries, a resource index and an LRU index that
    together stand for a list of entries in order of last use. */
module Caches {
  import opened Wrappers
  import opened Json
  import opened Plans

  datatype CacheKey = CacheKey(adapter: string, tool: ToolName, version: Option<string>, input: string)

  datatype Entry = Entry(output: Json, readSet: set<Resource>, lastUsed: nat)

  /** What a cached output is, without bookkeeping. */
  datatype Item = Item(key: CacheKey, output: Json, readSet: set<Resource>)

  // ---------------------------------------------------------- the plain list

  function KeySet(items: seq<Item>): set<CacheKey> {
    set i | i in items :: i.key
  }

  ghost predicate DistinctKeys(items: seq<Item>) {
    forall i, j | 0 <= i < j < |items| :: items[i].key != items[j].key
  }

  /** Without the items whose key is in `keys`. */
  function Drop(items: seq<Item>, keys: set<CacheKey>): seq<Item> {
    if items == [] then []
    else
      var init, last := Drop(items[..|items| - 1], keys), items[|items| - 1];
      if last.key in keys then init else init + [last]
  }

  function Find(items: seq<Item>, key: CacheKey): Option<Item> {
    if items == [] then None
    else if items[|items| - 1].key == key then Some(items[|items| - 1])
    else Find(items[..|items| - 1], key)
  }

  /** A hit moves the item to the recently used end. */
  function Touch(items: seq<Item>, key: CacheKey): seq<Item> {
    var found := Find(items, key);
    if found.Some? then Drop(items, {key}) + [found.value] else items
  }

  /** The newest `cap - 1` other items, and the new one. */
  function Add(items: seq<Item>, item: Item, cap: nat): seq<Item>
    requires cap > 0
  {
    var rest := Drop(items, {item.key});
    (if |rest| >= cap then rest[|rest| - (cap - 1)..] else rest) + [item]
  }

  /** The keys of the items that read one of `resources`. */
  function Overlapping(items: seq<Item>, resources: set<Resource>): set<CacheKey> {
    set i | i in items && !(i.readSet !! resources) :: i.key
  }

  function Invalidate(items: seq<Item>, resources: set<Resource>): seq<Item> {
    Drop(items, Overlapping(items, resources))
  }

  lemma {:induction false} DropMembers(items: seq<Item>, keys: set<CacheKey>)
    ensures forall i :: i in Drop(items, keys) <==> i in items && i.key !in keys
  {
    if items != [] {
      DropMembers(items[..|items| - 1], keys);
      assert items == items[..|items| - 1] + [items[|items| - 1]];
    }
  }

  lemma {:induction false} FindMember(items: seq<Item>, key: CacheKey)
    ensures Find(items, key).Some? ==> Find(items, key).value in items && Find(items, key).value.key == key
    ensures Find(items, key).None? <==> key !in KeySet(items)
  {
    if items != [] {
      FindMember(items[..|items| - 1], key);
      assert items == items[..|items| - 1] + [items[|items| - 1]];
    }
  }

  lemma {:induction false} DropOne(items: seq<Item>, i: nat)
    requires DistinctKeys(items) && i < |items|
    ensures Drop(items, {items[i].key}) == items[..i] + items[i + 1..]
  {
    var init, last := items[..|items| - 1], items[|items| - 1];
    if i < |init| {
      DropOne(init, i);
      assert items[i + 1..] == init[i + 1..] + [last];
      assert init[..i] == items[..i];
    } else {
      DropNone(init, {last.key});
      assert items[i + 1..] == [] && items[..i] == init;
    }
  }

  lemma {:induction false} DropNone(items: seq<Item>, keys: set<CacheKey>)
    requires forall i | 0 <= i < |items| :: items[i].key !in keys
    ensures Drop(items, keys) == items
  {
    if items != [] {
      DropNone(items[..|items| - 1], keys);
      assert items == items[..|items| - 1] + [items[|items| - 1]];
    }
  }

  lemma NothingDropped(items: seq<Item>)
    ensures Drop(items, {}) == items
  {
    DropNone(items, {});
  }

  lemma {:induction false} DropTwice(items: seq<Item>, some: set<CacheKey>, more: set<CacheKey>)
    ensures Drop(Drop(items, some), more) == Drop(items, some + more)
  {
    if items != [] {
      var init, last := items[..|items| - 1], items[|items| - 1];
      DropTwice(init, some, more);
      if last.key !in some {
        assert (Drop(init, some) + [last])[..|Drop(init, some)|] == Drop(init, some);
      }
    }
  }

  // ---------------------------------------------------- what callers observe

  /** Invalidation leaves nothing that read a written resource, and loses nothing else. */
  lemma InvalidateFind(items: seq<Item>, resources: set<Resource>, key: CacheKey)
    requires DistinctKeys(items)
    ensures Find(Invalidate(items, resources), key) ==
      if Find(items, key).Some? && Find(items, key).value.readSet !! resources then Find(items, key) else None
  {
    var gone := Overlapping(items, resources);
    var after := Invalidate(items, resources);
    DropMembers(items, gone);
    FindMember(items, key);
    FindMember(after, key);
    OneItem(items);
  }

  lemma OneItem(items: seq<Item>)
    requires DistinctKeys(items)
    ensures forall a, b | a in items && b in items && a.key == b.key :: a == b
  {
  }

  /** An inserted output is found; another key keeps its output or was evicted. */
  lemma AddFind(items: seq<Item>, item: Item, cap: nat, key: CacheKey)
    requires DistinctKeys(items) && cap > 0
    ensures Find(Add(items, item, cap), item.key) == Some(item)
    ensures key != item.key ==>
      Find(Add(items, item, cap), key).None? || Find(Add(items, item, cap), key) == Find(items, key)
    ensures |Add(items, item, cap)| <= cap
  {
    var after := Add(items, item, cap);
    assert after[|after| - 1] == item;
    DropMembers(items, {item.key});
    FindMember(items, key);
    FindMember(after, key);
    OneItem(items);
    DropShrinks(items, {item.key});
  }

  lemma {:induction false} DropShrinks(items: seq<Item>, keys: set<CacheKey>)
    ensures |Drop(items, keys)| <= |items|
  {
    if items != [] {
      DropShrinks(items[..|items| - 1], keys);
    }
  }

  /** A full cache gives up exactly its least recently used item. */
  lemma AddEvictsOldest(items: seq<Item>, item: Item, cap: nat)
    requires DistinctKeys(items) && |items| == cap > 0 && item.key !in KeySet(items)
    ensures Add(items, item, cap) == items[1..] + [item]
  {
    assert forall i | 0 <= i < |items| :: items[i] in items;
    DropNone(items, {item.key});
  }

  /** A hit changes no output. */
  lemma TouchFind(items: seq<Item>, touched: CacheKey, key: CacheKey)
    requires DistinctKeys(items)
    ensures Find(Touch(items, touched), key) == Find(items, key)
  {
    FindMember(items, touched);
    if Find(items, touched).Some? {
      var after := Touch(items, touched);
      DropMembers(items, {touched});
      FindMember(items, key);
      FindMember(after, key);
      OneItem(items);
      assert after[|after| - 1] == Find(items, touched).value;
    }
  }

  // ----------------------------------------------------------- representation

  /** The entries are the items, used in list order. */
  ghost predicate Represents(items: seq<Item>, entries: map<CacheKey, Entry>, clock: nat) {
    DistinctKeys(items) && entries.Keys == KeySet(items) && InUseOrder(items, entries, clock)
  }

  /** `lru` maps each entry's last use back to its key, and nothing else. */
  ghost predicate LruOk(entries: map<CacheKey, Entry>, lru: map<nat, CacheKey>) {
    && (forall t | t in lru :: lru[t] in entries && entries[lru[t]].lastUsed == t)
    && forall k | k in entries :: entries[k].lastUsed in lru && lru[entries[k].lastUsed] == k
  }

  function KeysFor(byResource: map<Resource, set<CacheKey>>, r: Resource): set<CacheKey> {
    if r in byResource then byResource[r] else {}
  }

  /** `byResource[r]` is exactly the keys whose recorded reads contain `r`. */
  ghost predicate IndexOk(entries: map<CacheKey, Entry>, byResource: map<Resource, set<CacheKey>>) {
    && (forall r | r in byResource :: byResource[r] != {})
    && forall r, k :: k in KeysFor(byResource, r) <==> k in entries && r in entries[k].readSet
  }

  lemma KeySetRemoved(items: seq<Item>, i: nat)
    requires DistinctKeys(items) && i < |items|
    ensures KeySet(items[..i] + items[i + 1..]) == KeySet(items) - {items[i].key}
  {
    var after := items[..i] + items[i + 1..];
    forall x
      ensures x in KeySet(after) <==> x in KeySet(items) && x != items[i].key
    {
      if x in KeySet(after) {
        var item :| item in after && item.key == x;
        var j :| 0 <= j < |after| && after[j] == item;
        assert after[j] == items[if j < i then j else j + 1];
      }
      if x in KeySet(items) && x != items[i].key {
        var item :| item in items && item.key == x;
        var j :| 0 <= j < |items| && items[j] == item;
        assert after[if j < i then j else j - 1] == item;
      }
    }
  }

  /** The listed items have their entries, in order of use. */
  ghost predicate InUseOrder(items: seq<Item>, entries: map<CacheKey, Entry>, clock: nat) {
    && (forall i | 0 <= i < |items| :: items[i].key in entries
          && entries[items[i].key].output == items[i].output && entries[items[i].key].readSet == items[i].readSet
          && entries[items[i].key].lastUsed <= clock)
    && forall i, j | 0 <= i < j < |items| :: items[i].key in entries && items[j].key in entries
          && entries[items[i].key].lastUsed < entries[items[j].key].lastUsed
  }

  lemma RemoveInOrder(items: seq<Item>, entries: map<CacheKey, Entry>, clock: nat, k: nat)
    requires DistinctKeys(items) && InUseOrder(items, entries, clock) && k < |items|
    ensures DistinctKeys(items[..k] + items[k + 1..])
      && InUseOrder(items[..k] + items[k + 1..], entries - {items[k].key}, clock)
  {
    var after, left := items[..k] + items[k + 1..], entries - {items[k].key};
    forall i | 0 <= i < |after|
      ensures after[i] == items[if i < k then i else i + 1] && after[i].key != items[k].key && after[i].key in left
    {
    }
    forall i, j | 0 <= i < j < |after|
      ensures after[i].key != after[j].key && entries[after[i].key].lastUsed < entries[after[j].key].lastUsed
    {
    }
  }

  lemma RemoveRepresents(items: seq<Item>, entries: map<CacheKey, Entry>, clock: nat, key: CacheKey)
    requires Represents(items, entries, clock)
    ensures Represents(Drop(items, {key}), entries - {key}, clock)
  {
    hide InUseOrder, DistinctKeys;
    if key in KeySet(items) {
      var i :| 0 <= i < |items| && items[i].key == key;
      DropOne(items, i);
      KeySetRemoved(items, i);
      hide KeySet, Drop;
      RemoveInOrder(items, entries, clock, i);
    } else {
      assert forall j | 0 <= j < |items| :: items[j].key in KeySet(items);
      DropNone(items, {key});
      assert entries - {key} == entries;
    }
  }

  lemma LruRemove(entries: map<CacheKey, Entry>, lru: map<nat, CacheKey>, key: CacheKey)
    requires LruOk(entries, lru) && key in entries
    ensures LruOk(entries - {key}, lru - {entries[key].lastUsed})
  {
  }

  lemma LruAdd(entries: map<CacheKey, Entry>, lru: map<nat, CacheKey>, key: CacheKey, entry: Entry)
    requires LruOk(entries, lru) && key !in entries && entry.lastUsed !in lru
    ensures LruOk(entries[key := entry], lru[entry.lastUsed := key])
  {
  }

  /** Ticks of the future are not in use. */
  lemma NowIsNew(items: seq<Item>, entries: map<CacheKey, Entry>, clock: nat, lru: map<nat, CacheKey>, now: nat)
    requires Represents(items, entries, clock) && LruOk(entries, lru) && clock < now
    ensures now !in lru
  {
    forall t | t in lru
      ensures t <= clock
    {
      assert lru[t] in KeySet(items);
      var i :| 0 <= i < |items| && items[i].key == lru[t];
    }
  }

  lemma IndexRemove(entries: map<CacheKey, Entry>, byResource: map<Resource, set<CacheKey>>, after: map<Resource,
      set<CacheKey>>, key: CacheKey)
    requires IndexOk(entries, byResource) && key in entries && forall r | r in after :: after[r] != {}
    requires forall r :: KeysFor(after, r) == KeysFor(byResource, r) - if r in entries[key].readSet then {key} else {}
    ensures IndexOk(entries - {key}, after)
  {
  }

  lemma IndexAdd(entries: map<CacheKey, Entry>, byResource: map<Resource, set<CacheKey>>, after: map<Resource,
      set<CacheKey>>, key: CacheKey, entry: Entry)
    requires IndexOk(entries, byResource) && key !in entries && forall r | r in after :: after[r] != {}
    requires forall r :: KeysFor(after, r) == KeysFor(byResource, r) + if r in entry.readSet then {key} else {}
    ensures IndexOk(entries[key := entry], after)
  {
  }

  lemma IndexedSomewhere(entries: map<CacheKey, Entry>, byResource: map<Resource, set<CacheKey>>)
    requires IndexOk(entries, byResource)
    ensures forall r | r in byResource :: byResource[r] != {}
  {
  }

  lemma IndexSame(entries: map<CacheKey, Entry>, byResource: map<Resource, set<CacheKey>>, key: CacheKey, now: nat)
    requires IndexOk(entries, byResource) && key in entries
    ensures IndexOk(entries[key := entries[key].(lastUsed := now)], byResource)
  {
  }

  lemma AppendRepresents(items: seq<Item>, entries: map<CacheKey, Entry>, clock: nat, item: Item, now: nat)
    requires Represents(items, entries, clock) && item.key !in entries && clock < now
    ensures Represents(items + [item], entries[item.key := Entry(item.output, item.readSet, now)], now)
  {
    var after := items + [item];
    assert KeySet(after) == KeySet(items) + {item.key};
    assert forall i | 0 <= i < |items| :: items[i].key in KeySet(items);
  }

  // ------------------------------------------------------------------- class

  class MemoryCache {
    const maxEntries: nat
    var entries: map<CacheKey, Entry>
    var byResource: map<Resource, set<CacheKey>>
    var lru: map<nat, CacheKey>
    var clock: nat
    ghost var items: seq<Item>

    ghost predicate Valid()
      reads this
    {
      && maxEntries > 0 && |items| <= maxEntries
      && Represents(items, entries, clock)
      && LruOk(entries, lru)
      && IndexOk(entries, byResource)
    }

    constructor (limit: nat)
      ensures Valid() && items == [] && maxEntries == if limit > 1 then limit else 1
    {
      maxEntries := if limit > 1 then limit else 1;
      entries, byResource, lru, clock := map[], map[], map[], 0;
      items := [];
    }

    /** Takes `key` out of the index of the resources it read. */
    method Unindex(key: CacheKey, readSet: set<Resource>)
      requires forall r | r in byResource :: byResource[r] != {}
      modifies this`byResource
      ensures forall r | r in byResource :: byResource[r] != {}
      ensures forall r :: KeysFor(byResource, r) == old(KeysFor(byResource, r)) - if r in readSet then {key} else {}
    {
      var todo := readSet;
      while todo != {}
        invariant todo <= readSet
        invariant forall r | r in byResource :: byResource[r] != {}
        invariant forall r ::
          KeysFor(byResource, r) == old(KeysFor(byResource, r)) - if r in readSet - todo then {key} else {}
      {
        var r :| r in todo;
        todo := todo - {r};
        if r in byResource {
          var keys := byResource[r] - {key};
          byResource := if keys == {} then byResource - {r} else byResource[r := keys];
        }
      }
      assert readSet - todo == readSet;
    }

    method Remove(key: CacheKey)
      requires Valid()
      modifies this`entries, this`byResource, this`lru, this`items
      ensures Valid() && items == Drop(old(items), {key})
      ensures entries == old(entries) - {key}
    {
      hide Represents, LruOk, KeysFor, Drop;
      RemoveRepresents(items, entries, clock, key);
      DropShrinks(items, {key});
      if key in entries {
        var entry := entries[key];
        LruRemove(entries, lru, key);
        ghost var entries0, byResource0 := entries, byResource;
        entries := entries - {key};
        lru := lru - {entry.lastUsed};
        Unindex(key, entry.readSet);
        IndexRemove(entries0, byResource0, byResource, key);
      } else {
        assert entries - {key} == entries;
      }
      items := Drop(items, {key});
    }

    /** The smallest tick of the LRU index. */
    method FirstTick() returns (t: nat)
      requires lru != map[]
      ensures t in lru && forall s | s in lru :: t <= s
    {
      t :| t in lru;
      var rest := lru.Keys - {t};
      while rest != {}
        invariant t in lru && rest <= lru.Keys && forall s | s in lru && s !in rest :: t <= s
      {
        var s :| s in rest;
        rest := rest - {s};
        if s < t {
          t := s;
        }
      }
    }

    method EvictLeastRecentlyUsed()
      requires Valid() && items != []
      modifies this`entries, this`byResource, this`lru, this`items
      ensures Valid() && items == old(items)[1..]
    {
      hide IndexOk, LruOk, Represents, Drop;
      SomethingUsed(items, entries, clock, lru);
      var t := FirstTick();
      var victim := lru[t];
      OldestIsFirst(items, entries, clock, lru, t);
      ItemsDistinct(items, entries, clock);
      DropOne(items, 0);
      assert items[..0] + items[1..] == items[1..];
      Remove(victim);
    }

    method Get(key: CacheKey) returns (output: Option<Json>)
      requires Valid()
      modifies this
      ensures Valid() && items == Touch(old(items), key)
      ensures output == match Find(old(items), key) case Some(item) => Some(item.output) case None => None
    {
      hide IndexOk, LruOk, Represents, Drop, DistinctKeys, Touch, Find;
      ghost var before := clock;
      clock := clock + 1;
      MissOrHit(items, entries, before, key);
      if key !in entries {
        MoreTime(items, entries, before);
        return None;
      }
      var entry := entries[key];
      NowIsNew(items, entries, before, lru, clock);
      TouchRepresents(items, entries, before, key, clock);
      LruTouch(entries, lru, key, clock);
      IndexSame(entries, byResource, key, clock);
      lru := (lru - {entry.lastUsed})[clock := key];
      entries := entries[key := entry.(lastUsed := clock)];
      items := Touch(items, key);
      output := Some(entry.output);
    }

    /** Adds `key` to the index of the resources it read. */
    method Index(key: CacheKey, readSet: set<Resource>)
      requires forall r | r in byResource :: byResource[r] != {}
      modifies this`byResource
      ensures forall r | r in byResource :: byResource[r] != {}
      ensures forall r :: KeysFor(byResource, r) == old(KeysFor(byResource, r)) + if r in readSet then {key} else {}
    {
      var todo := readSet;
      while todo != {}
        invariant todo <= readSet
        invariant forall r | r in byResource :: byResource[r] != {}
        invariant forall r ::
          KeysFor(byResource, r) == old(KeysFor(byResource, r)) + if r in readSet - todo then {key} else {}
      {
        var r :| r in todo;
        todo := todo - {r};
        byResource := byResource[r := KeysFor(byResource, r) + {key}];
      }
      assert readSet - todo == readSet;
    }

    method Insert(key: CacheKey, output: Json, readSet: set<Resource>)
      requires Valid()
      modifies this
      ensures Valid() && items == Add(old(items), Item(key, output, readSet), maxEntries)
    {
      hide IndexOk, LruOk, Represents, Drop, DistinctKeys, Touch, Find, KeySet;
      ghost var before := clock;
      ghost var rest := Drop(items, {key});
      Remove(key);
      MakeRoom(key, rest);
      clock := clock + 1;
      NowIsNew(items, entries, before, lru, clock);
      AppendRepresents(items, entries, before, Item(key, output, readSet), clock);
      ghost var byResource0 := byResource;
      IndexedSomewhere(entries, byResource);
      Index(key, readSet);
      IndexAdd(entries, byResource0, byResource, key, Entry(output, readSet, clock));
      LruAdd(entries, lru, key, Entry(output, readSet, clock));
      lru := lru[clock := key];
      entries := entries[key := Entry(output, readSet, clock)];
      items := items + [Item(key, output, readSet)];
    }

    /** Evicts until one more entry fits. */
    method MakeRoom(key: CacheKey, ghost rest: seq<Item>)
      requires Valid() && key !in entries && items == rest
      modifies this`entries, this`byResource, this`lru, this`items
      ensures Valid() && key !in entries
      ensures items == if |rest| >= maxEntries then rest[|rest| - (maxEntries - 1)..] else rest
    {
      hide IndexOk, LruOk, Represents, Drop, DistinctKeys;
      EntryCount(items, entries, clock);
      NotListed(items, entries, clock, key);
      while |entries| >= maxEntries
        modifies this`entries, this`byResource, this`lru, this`items
        invariant Valid() && key !in KeySet(rest) && key !in entries
        invariant |entries| == |items| <= |rest| && items == rest[|rest| - |items|..]
        invariant |items| < |rest| ==> |items| + 1 >= maxEntries
        decreases |items|
      {
        EvictLeastRecentlyUsed();
        EntryCount(items, entries, clock);
        SuffixKeys(rest, |rest| - |items|);
        NotListed(items, entries, clock, key);
      }
    }

    /** The keys indexed under one of `resources`. */
    method Victims(resources: set<Resource>) returns (victims: set<CacheKey>)
      requires Valid()
      ensures victims == Overlapping(items, resources)
    {
      hide Represents, LruOk, IndexOk;
      victims := {};
      var todo := resources;
      while todo != {}
        invariant todo <= resources
        invariant forall k :: k in victims <==> exists r :: r in resources - todo && k in KeysFor(byResource, r)
      {
        var r :| r in todo;
        todo := todo - {r};
        victims := victims + KeysFor(byResource, r);
      }
      assert resources - todo == resources;
      VictimsOverlap(items, entries, clock, byResource, resources, victims);
    }

    method InvalidateReads(resources: set<Resource>)
      requires Valid()
      modifies this`entries, this`byResource, this`lru, this`items
      ensures Valid() && items == Invalidate(old(items), resources)
    {
      hide Represents, LruOk, IndexOk, Drop, Overlapping;
      var victims := Victims(resources);
      var left := victims;
      NothingDropped(items);
      assert victims - left == {};
      while left != {}
        modifies this`entries, this`byResource, this`lru, this`items
        invariant left <= victims && Valid() && items == Drop(old(items), victims - left)
      {
        var k :| k in left;
        DropTwice(old(items), victims - left, {k});
        assert victims - left + {k} == victims - (left - {k});
        left := left - {k};
        Remove(k);
      }
      assert victims - left == victims;
    }

    method Clear()
      requires Valid()
      modifies this`entries, this`byResource, this`lru, this`items
      ensures Valid() && items == []
    {
      entries, byResource, lru := map[], map[], map[];
      items := [];
    }
  }

  lemma SomethingUsed(items: seq<Item>, entries: map<CacheKey, Entry>, clock: nat, lru: map<nat, CacheKey>)
    requires Represents(items, entries, clock) && LruOk(entries, lru) && items != []
    ensures lru != map[]
  {
    assert items[0].key in entries;
    assert entries[items[0].key].lastUsed in lru;
  }

  lemma ItemsDistinct(items: seq<Item>, entries: map<CacheKey, Entry>, clock: nat)
    requires Represents(items, entries, clock)
    ensures DistinctKeys(items)
  {
  }

  lemma NotListed(items: seq<Item>, entries: map<CacheKey, Entry>, clock: nat, key: CacheKey)
    requires Represents(items, entries, clock)
    ensures key in entries <==> key in KeySet(items)
  {
  }

  lemma SuffixKeys(items: seq<Item>, i: nat)
    requires i <= |items|
    ensures KeySet(items[i..]) <= KeySet(items)
  {
  }

  lemma MissOrHit(items: seq<Item>, entries: map<CacheKey, Entry>, clock: nat, key: CacheKey)
    requires Represents(items, entries, clock)
    ensures key !in entries ==> Find(items, key).None? && Touch(items, key) == items
    ensures key in entries ==> Find(items, key) == Some(Item(key, entries[key].output, entries[key].readSet))
    ensures |Touch(items, key)| == |items|
  {
    FindMember(items, key);
    TouchSize(items, key);
    if key in entries {
      HitItem(items, entries, clock, key);
    }
  }

  lemma TouchRepresents(items: seq<Item>, entries: map<CacheKey, Entry>, clock: nat, key: CacheKey, now: nat)
    requires Represents(items, entries, clock) && key in entries && clock < now
    ensures Represents(Touch(items, key), entries[key := entries[key].(lastUsed := now)], now)
  {
    hide Represents, Drop, Find;
    HitItem(items, entries, clock, key);
    RemoveRepresents(items, entries, clock, key);
    var item := Item(key, entries[key].output, entries[key].readSet);
    AppendRepresents(Drop(items, {key}), entries - {key}, clock, item, now);
    assert (entries - {key})[key := entries[key].(lastUsed := now)] == entries[key := entries[key].(lastUsed := now)];
  }

  lemma LruTouch(entries: map<CacheKey, Entry>, lru: map<nat, CacheKey>, key: CacheKey, now: nat)
    requires LruOk(entries, lru) && key in entries && now !in lru
    ensures LruOk(entries[key := entries[key].(lastUsed := now)], (lru - {entries[key].lastUsed})[now := key])
  {
  }

  lemma OldestIsFirst(items: seq<Item>, entries: map<CacheKey, Entry>, clock: nat, lru: map<nat, CacheKey>, t: nat)
    requires Represents(items, entries, clock) && LruOk(entries, lru) && items != []
    requires t in lru && forall s | s in lru :: t <= s
    ensures lru[t] == items[0].key
  {
    assert lru[t] in KeySet(items);
    var i :| 0 <= i < |items| && items[i].key == lru[t];
    assert items[0].key in entries;
  }

  lemma HitItem(items: seq<Item>, entries: map<CacheKey, Entry>, clock: nat, key: CacheKey)
    requires Represents(items, entries, clock) && key in entries
    ensures Find(items, key) == Some(Item(key, entries[key].output, entries[key].readSet))
  {
    FindMember(items, key);
    var item := Find(items, key).value;
    var i :| 0 <= i < |items| && items[i] == item;
  }

  lemma TouchSize(items: seq<Item>, key: CacheKey)
    requires DistinctKeys(items)
    ensures |Touch(items, key)| == |items|
  {
    FindMember(items, key);
    if key in KeySet(items) {
      var i :| 0 <= i < |items| && items[i].key == key;
      DropOne(items, i);
    }
  }

  lemma MoreTime(items: seq<Item>, entries: map<CacheKey, Entry>, clock: nat)
    requires Represents(items, entries, clock)
    ensures Represents(items, entries, clock + 1)
  {
  }

  lemma {:induction false} KeyCount(items: seq<Item>)
    requires DistinctKeys(items)
    ensures |KeySet(items)| == |items|
  {
    if items != [] {
      var init, last := items[..|items| - 1], items[|items| - 1];
      KeyCount(init);
      assert items == init + [last];
      assert KeySet(items) == KeySet(init) + {last.key};
      assert last.key !in KeySet(init);
    }
  }

  lemma EntryCount(items: seq<Item>, entries: map<CacheKey, Entry>, clock: nat)
    requires Represents(items, entries, clock)
    ensures |entries| == |items|
  {
    KeyCount(items);
    assert |entries| == |entries.Keys|;
  }

  lemma VictimsOverlap(items: seq<Item>, entries: map<CacheKey, Entry>, clock: nat, byResource: map<Resource,
      set<CacheKey>>, resources: set<Resource>, victims: set<CacheKey>)
    requires Represents(items, entries, clock) && IndexOk(entries, byResource)
    requires forall k :: k in victims <==> exists r :: r in resources && k in KeysFor(byResource, r)
    ensures victims == Overlapping(items, resources)
  {
    forall k
      ensures k in victims <==> k in Overlapping(items, resources)
    {
      if k in victims {
        var r :| r in resources && k in KeysFor(byResource, r);
        HitItem(items, entries, clock, k);
        FindMember(items, k);
      }
      if k in Overlapping(items, resources) {
        var item :| item in items && !(item.readSet !! resources) && item.key == k;
        var i :| 0 <= i < |items| && items[i] == item;
        var r :| r in item.readSet && r in resources;
        assert k in KeysFor(byResource, r);
      }
    }
  }
}
