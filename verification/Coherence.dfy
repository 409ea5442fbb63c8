/** Cache coherence over a run: a hit returns what the call would return if it
    were made now.

    Units look up and insert while they hold their locks; a unit that wrote has
    the cached reads of what it wrote dropped after its locks are gone, but
    before anything else is admitted. */
module Coherence {
  import opened Wrappers
  import opened Json
  import opened Plans
  import opened Locks
  import opened Stores
  import opened Caches

  /** What a call with a given key answers, and which resources that depends on. */
  datatype Calling = Calling(answer: (CacheKey, Store) -> Json, readsOf: CacheKey -> set<Resource>)

  /** The recorded reads of a key cover what its answer depends on. */
  ghost predicate ReadsCover(k: Calling) {
    forall key, s, t | SameStore(k.readsOf(key), s, t) :: k.answer(key, s) == k.answer(key, t)
  }

  /** A unit that holds its locks; only units that do not write use the cache. */
  datatype Holder = Holder(lock: LockRequest, caching: bool)

  /** A call that was made but whose output is not cached yet. */
  datatype Pending = Pending(unit: nat, key: CacheKey, output: Json)

  /** `wrote` are the resources each unit has changed and that were not dropped
      since; `absorbing` is the unit whose locks were released last, until its
      writes are dropped. */
  datatype State = State(
    store: Store,
    items: seq<Item>,
    active: map<nat, Holder>,
    absorbing: Option<(nat, Holder)>,
    wrote: map<nat, set<Resource>>,
    pending: set<Pending>)

  datatype Act =
    | Admit(unit: nat, holder: Holder)
    | Hit(unit: nat, key: CacheKey)
    | Call(unit: nat, key: CacheKey)
    | Keep(call: Pending)
    | Change(unit: nat, store: Store)
    | Release(unit: nat)
    | Absorb(unit: nat, written: set<Resource>)

  /** Units whose writes may still be undropped. */
  ghost function Holding(s: State): map<nat, Holder> {
    if s.absorbing.Some? then s.active[s.absorbing.value.0 := s.absorbing.value.1] else s.active
  }

  ghost predicate ReadsLocked(k: Calling, s: State, u: nat, key: CacheKey) {
    u in s.active && s.active[u].caching && (s.active[u].lock.world || k.readsOf(key) <= s.active[u].lock.readSet)
  }

  ghost function WroteBy(s: State, u: nat): set<Resource> {
    if u in s.wrote then s.wrote[u] else {}
  }

  ghost function Changed(before: Store, after: Store): set<Resource> {
    set r | r in before.Keys + after.Keys && !SameStore({r}, before, after)
  }

  ghost predicate Within(resources: set<Resource>, lock: LockRequest) {
    lock.world || resources <= lock.writeSet
  }

  /** When an act may happen: units overlap as their locks allow, and nothing is
      admitted before the last writes are dropped; cacheable calls read what
      their unit declares; writes stay within what the unit declares; and what a
      unit changed is among the writes of its members that succeeded. */
  ghost predicate Allowed(k: Calling, s: State, act: Act) {
    match act
    case Admit(u, holder) =>
      s.absorbing.None? && u !in s.active && forall v | v in s.active :: Compatible(holder.lock, s.active[v].lock)
    case Hit(u, key) => ReadsLocked(k, s, u, key) && Find(s.items, key).Some?
    case Call(u, key) => ReadsLocked(k, s, u, key)
    case Keep(call) => call in s.pending
    case Change(u, store) => u in s.active && !s.active[u].caching && Within(Changed(s.store, store), s.active[u].lock)
    case Release(u) => u in s.active && s.absorbing.None?
    case Absorb(u, written) => s.absorbing.Some? && s.absorbing.value.0 == u && WroteBy(s, u) <= written
  }

  ghost function After(k: Calling, s: State, act: Act, cap: nat): State
    requires cap > 0 && (act.Release? ==> act.unit in s.active)
  {
    match act
    case Admit(u, holder) => s.(active := s.active[u := holder])
    case Hit(_, key) => s.(items := Touch(s.items, key))
    case Call(u, key) => s.(pending := s.pending + {Pending(u, key, k.answer(key, s.store))})
    case Keep(call) => s.(items := Add(s.items, Item(call.key, call.output, k.readsOf(call.key)), cap))
    case Change(u, store) => s.(store := store, wrote := s.wrote[u := WroteBy(s, u) + Changed(s.store, store)])
    case Release(u) => s.(active := s.active - {u}, absorbing := Some((u, s.active[u])),
      pending := set p | p in s.pending && p.unit != u)
    case Absorb(u, written) => s.(items := Invalidate(s.items, written), absorbing := None, wrote := s.wrote[u := {}])
  }

  // --------------------------------------------------------------- invariant

  ghost predicate LocksOk(s: State) {
    && (s.absorbing.Some? ==> s.absorbing.value.0 !in s.active)
    && forall u, v | u in Holding(s) && v in Holding(s) && u != v :: Compatible(Holding(s)[u].lock, Holding(s)[v].lock)
  }

  /** Undropped writes belong to units that hold a lock for them. */
  ghost predicate WritesOk(s: State) {
    forall u | u in s.wrote && s.wrote[u] != {} ::
      u in Holding(s) && !Holding(s)[u].caching && Within(s.wrote[u], Holding(s)[u].lock)
  }

  ghost predicate Doomed(s: State, u: nat, item: Item) {
    u in s.wrote && !(s.wrote[u] !! item.readSet)
  }

  /** The item is what its call would answer now, or some unit overwrote what it
      read and has yet to be absorbed. */
  ghost predicate FreshOrDoomed(k: Calling, s: State, item: Item) {
    && item.readSet == k.readsOf(item.key)
    && (item.output == k.answer(item.key, s.store) || exists u :: Doomed(s, u, item))
  }

  ghost predicate PendingOk(k: Calling, s: State, p: Pending) {
    ReadsLocked(k, s, p.unit, p.key) && p.output == k.answer(p.key, s.store)
  }

  ghost predicate Inv(k: Calling, s: State) {
    && LocksOk(s) && WritesOk(s) && DistinctKeys(s.items)
    && (forall item | item in s.items :: FreshOrDoomed(k, s, item))
    && forall p | p in s.pending :: PendingOk(k, s, p)
  }

  /** Nothing a caching unit may look up was overwritten. */
  lemma LockedIsUnwritten(k: Calling, s: State, u: nat, key: CacheKey)
    requires LocksOk(s) && WritesOk(s) && ReadsLocked(k, s, u, key)
    ensures forall v | v in s.wrote :: s.wrote[v] !! k.readsOf(key)
  {
    forall v | v in s.wrote
      ensures s.wrote[v] !! k.readsOf(key)
    {
      assert u in Holding(s) && Holding(s)[u] == s.active[u];
      if s.wrote[v] != {} {
        assert v in Holding(s) && v != u;
        assert Compatible(Holding(s)[u].lock, Holding(s)[v].lock);
      }
    }
  }

  /** A hit returns what the call would answer now. */
  lemma HitIsFresh(k: Calling, s: State, u: nat, key: CacheKey)
    requires Inv(k, s) && Allowed(k, s, Hit(u, key))
    ensures Find(s.items, key).Some? && Find(s.items, key).value.output == k.answer(key, s.store)
  {
    LockedIsUnwritten(k, s, u, key);
    FindMember(s.items, key);
    assert FreshOrDoomed(k, s, Find(s.items, key).value);
  }

  lemma ChangeKeeps(k: Calling, before: Store, after: Store, key: CacheKey)
    requires ReadsCover(k) && Changed(before, after) !! k.readsOf(key)
    ensures k.answer(key, after) == k.answer(key, before)
  {
    forall r | r in k.readsOf(key)
      ensures (r in before <==> r in after) && (r in before ==> before[r] == after[r])
    {
      assert r !in Changed(before, after);
      assert r !in before.Keys + after.Keys || SameStore({r}, before, after);
    }
    assert SameStore(k.readsOf(key), before, after);
  }

  // ------------------------------------------------------------------- steps

  lemma AdmitStep(k: Calling, s: State, u: nat, holder: Holder)
    requires Inv(k, s) && Allowed(k, s, Admit(u, holder))
    ensures Inv(k, s.(active := s.active[u := holder]))
  {
    hide FreshOrDoomed;
    var s' := s.(active := s.active[u := holder]);
    assert Holding(s') == s.active[u := holder] && Holding(s) == s.active;
    forall item | item in s'.items
      ensures FreshOrDoomed(k, s', item)
    {
      SameDoom(k, s, s', item);
    }
  }

  lemma SameDoom(k: Calling, s: State, s': State, item: Item)
    requires s'.store == s.store && s'.wrote == s.wrote && FreshOrDoomed(k, s, item)
    ensures FreshOrDoomed(k, s', item)
  {
    if u :| Doomed(s, u, item) {
      assert Doomed(s', u, item);
    }
  }

  /** The cache after a hit or an insertion holds nothing new but the item itself. */
  lemma ItemsStep(k: Calling, s: State, items: seq<Item>)
    requires Inv(k, s) && DistinctKeys(items)
    requires forall item | item in items :: FreshOrDoomed(k, s, item)
    ensures Inv(k, s.(items := items))
  {
    hide FreshOrDoomed;
    var s' := s.(items := items);
    assert Holding(s') == Holding(s);
    forall item | item in items
      ensures FreshOrDoomed(k, s', item)
    {
      SameDoom(k, s, s', item);
    }
  }

  lemma TouchItems(items: seq<Item>, key: CacheKey)
    requires DistinctKeys(items)
    ensures DistinctKeys(Touch(items, key)) && forall item | item in Touch(items, key) :: item in items
  {
    FindMember(items, key);
    DropMembers(items, {key});
    DropDistinct(items, {key});
    var after := Touch(items, key);
    if Find(items, key).Some? {
      var rest := Drop(items, {key});
      assert forall i | 0 <= i < |rest| :: rest[i] in rest;
    }
  }

  lemma {:induction false} DropDistinct(items: seq<Item>, keys: set<CacheKey>)
    requires DistinctKeys(items)
    ensures DistinctKeys(Drop(items, keys))
  {
    if items != [] {
      var init := items[..|items| - 1];
      DropDistinct(init, keys);
      DropMembers(init, keys);
      var before := Drop(init, keys);
      forall i | 0 <= i < |before|
        ensures before[i].key != items[|items| - 1].key
      {
        assert before[i] in before;
        var j :| 0 <= j < |init| && init[j] == before[i];
        assert items[j] == before[i];
      }
    }
  }

  lemma AddItems(items: seq<Item>, item: Item, cap: nat)
    requires DistinctKeys(items) && cap > 0
    ensures DistinctKeys(Add(items, item, cap)) && forall i | i in Add(items, item, cap) :: i in items || i == item
  {
    DropMembers(items, {item.key});
    DropDistinct(items, {item.key});
    var rest := Drop(items, {item.key});
    assert forall i | 0 <= i < |rest| :: rest[i] in rest;
  }

  lemma KeepStep(k: Calling, s: State, call: Pending, cap: nat)
    requires Inv(k, s) && Allowed(k, s, Keep(call)) && cap > 0
    ensures Inv(k, After(k, s, Keep(call), cap))
  {
    var item := Item(call.key, call.output, k.readsOf(call.key));
    assert PendingOk(k, s, call);
    assert FreshOrDoomed(k, s, item);
    AddItems(s.items, item, cap);
    ItemsStep(k, s, Add(s.items, item, cap));
  }

  lemma CallStep(k: Calling, s: State, u: nat, key: CacheKey, cap: nat)
    requires Inv(k, s) && Allowed(k, s, Call(u, key)) && cap > 0
    ensures Inv(k, After(k, s, Call(u, key), cap))
  {
    hide FreshOrDoomed;
    var s' := After(k, s, Call(u, key), cap);
    assert Holding(s') == Holding(s);
    forall item | item in s'.items
      ensures FreshOrDoomed(k, s', item)
    {
      SameDoom(k, s, s', item);
    }
  }

  lemma ChangeItem(k: Calling, s: State, u: nat, store: Store, cap: nat, item: Item)
    requires ReadsCover(k) && Allowed(k, s, Change(u, store)) && cap > 0 && FreshOrDoomed(k, s, item)
    ensures FreshOrDoomed(k, After(k, s, Change(u, store), cap), item)
  {
    var s' := After(k, s, Change(u, store), cap);
    var changed := Changed(s.store, store);
    if v :| Doomed(s, v, item) {
      assert Doomed(s', v, item);
    } else if changed !! item.readSet {
      ChangeKeeps(k, s.store, store, item.key);
    } else {
      assert Doomed(s', u, item);
    }
  }

  /** A write dooms what it invalidates, and touches no call in progress. */
  lemma ChangeStep(k: Calling, s: State, u: nat, store: Store, cap: nat)
    requires ReadsCover(k) && Inv(k, s) && Allowed(k, s, Change(u, store)) && cap > 0
    ensures Inv(k, After(k, s, Change(u, store), cap))
  {
    hide FreshOrDoomed, Changed;
    var s' := After(k, s, Change(u, store), cap);
    assert Holding(s') == Holding(s) && u in Holding(s) && Holding(s)[u] == s.active[u];
    forall item | item in s'.items
      ensures FreshOrDoomed(k, s', item)
    {
      ChangeItem(k, s, u, store, cap, item);
    }
    assert LocksOk(s') && WritesOk(s');
    forall p | p in s'.pending
      ensures PendingOk(k, s', p)
    {
      LockedIsUnwritten(k, s', p.unit, p.key);
      assert s'.wrote[u] !! k.readsOf(p.key);
      ChangeKeeps(k, s.store, store, p.key);
    }
  }

  lemma ReleaseStep(k: Calling, s: State, u: nat, cap: nat)
    requires Inv(k, s) && Allowed(k, s, Release(u)) && cap > 0
    ensures Inv(k, After(k, s, Release(u), cap))
  {
    hide FreshOrDoomed;
    var s' := After(k, s, Release(u), cap);
    assert Holding(s') == Holding(s);
    forall item | item in s'.items
      ensures FreshOrDoomed(k, s', item)
    {
      SameDoom(k, s, s', item);
    }
  }

  /** Absorbing drops every item the unit doomed. */
  lemma AbsorbStep(k: Calling, s: State, u: nat, written: set<Resource>, cap: nat)
    requires Inv(k, s) && Allowed(k, s, Absorb(u, written)) && cap > 0
    ensures Inv(k, After(k, s, Absorb(u, written), cap))
  {
    var s' := After(k, s, Absorb(u, written), cap);
    DropMembers(s.items, Caches.Overlapping(s.items, written));
    DropDistinct(s.items, Caches.Overlapping(s.items, written));
    assert forall v | v in Holding(s') :: v in Holding(s) && v != u && Holding(s')[v] == Holding(s)[v];
    forall v | v in s'.wrote && s'.wrote[v] != {}
      ensures v in Holding(s')
    {
      assert v != u && v in Holding(s);
    }
    assert LocksOk(s') && WritesOk(s');
    forall item | item in s'.items
      ensures FreshOrDoomed(k, s', item)
    {
      assert item in s.items && item.readSet !! written;
      if v :| Doomed(s, v, item) {
        assert v != u;
        assert Doomed(s', v, item);
      }
    }
    assert forall p | p in s'.pending :: PendingOk(k, s, p);
  }

  /** Every act keeps the cache coherent. */
  lemma ActKeeps(k: Calling, s: State, act: Act, cap: nat)
    requires ReadsCover(k) && Inv(k, s) && Allowed(k, s, act) && cap > 0
    ensures Inv(k, After(k, s, act, cap))
  {
    match act
    case Admit(u, holder) => AdmitStep(k, s, u, holder);
    case Hit(_, key) =>
      TouchItems(s.items, key);
      ItemsStep(k, s, Touch(s.items, key));
    case Call(u, key) => CallStep(k, s, u, key, cap);
    case Keep(call) => KeepStep(k, s, call, cap);
    case Change(u, store) => ChangeStep(k, s, u, store, cap);
    case Release(u) => ReleaseStep(k, s, u, cap);
    case Absorb(u, written) => AbsorbStep(k, s, u, written, cap);
  }

  // -------------------------------------------------------------------- runs

  ghost predicate Runs(k: Calling, cap: nat, states: seq<State>, acts: seq<Act>) {
    && cap > 0 && |states| == |acts| + 1
    && forall i | 0 <= i < |acts| ::
         Allowed(k, states[i], acts[i]) && states[i + 1] == After(k, states[i], acts[i], cap)
  }

  lemma {:induction false} RunKeeps(k: Calling, cap: nat, states: seq<State>, acts: seq<Act>, i: nat)
    requires ReadsCover(k) && Runs(k, cap, states, acts) && Inv(k, states[0]) && i < |states|
    ensures Inv(k, states[i])
  {
    hide Inv, Allowed, After;
    if i > 0 {
      RunKeeps(k, cap, states, acts, i - 1);
      ActKeeps(k, states[i - 1], acts[i - 1], cap);
    }
  }

  /** Over every run from a coherent cache, every hit returns what making the
      call at that moment would return. */
  lemma HitsAreFresh(k: Calling, cap: nat, states: seq<State>, acts: seq<Act>, i: nat)
    requires ReadsCover(k) && Runs(k, cap, states, acts) && Inv(k, states[0])
    requires i < |acts| && acts[i].Hit?
    ensures Find(states[i].items, acts[i].key).Some?
    ensures Find(states[i].items, acts[i].key).value.output == k.answer(acts[i].key, states[i].store)
  {
    RunKeeps(k, cap, states, acts, i);
    HitIsFresh(k, states[i], acts[i].unit, acts[i].key);
  }

  ghost predicate Coherent(k: Calling, store: Store, items: seq<Item>) {
    && DistinctKeys(items)
    && forall item | item in items :: item.readSet == k.readsOf(item.key) && item.output == k.answer(item.key, store)
  }

  /** A run that has ended leaves a coherent cache for the next one. */
  lemma QuietIsCoherent(k: Calling, s: State)
    requires Inv(k, s) && s.active == map[] && s.absorbing.None?
    ensures Coherent(k, s.store, s.items)
  {
    forall item | item in s.items
      ensures item.readSet == k.readsOf(item.key) && item.output == k.answer(item.key, s.store)
    {
      assert FreshOrDoomed(k, s, item);
      assert forall u | u in s.wrote :: s.wrote[u] == {};
    }
  }

  /** A run over a coherent cache starts coherent. */
  lemma StartIsCoherent(k: Calling, store: Store, items: seq<Item>)
    requires Coherent(k, store, items)
    ensures Inv(k, State(store, items, map[], None, map[], {}))
  {
  }
}
