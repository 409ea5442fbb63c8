/** The scheduler's resource lock table.

    The table keeps counters per resource. `held` is what they stand for: the
    requests acquired and not yet released. Acquisition succeeds exactly when
    the request is compatible with every held one, one by one. */
module Locks {
  import opened Wrappers
  import opened Plans

  datatype LockState = Read(count: nat) | Write | Commutative(tool: ToolName, count: nat)

  datatype LockRequest = LockRequest(
    readSet: set<Resource>,
    writeSet: set<Resource>,
    commutativeTool: Option<ToolName>,
    world: bool)

  const NoLocks := LockRequest({}, {}, None, false)

  function ForEffects(effects: ResolvedEffects): LockRequest {
    if !effects.declared then LockRequest({}, {}, None, true)
    else LockRequest(effects.readSet, effects.writeSet, if effects.commutative then Some(effects.tool) else None, false)
  }

  function Merge(a: LockRequest, b: LockRequest): LockRequest {
    LockRequest(
      a.readSet + b.readSet,
      a.writeSet + b.writeSet,
      if a.commutativeTool != b.commutativeTool then None else a.commutativeTool,
      a.world || b.world)
  }

  /** The lock of a batch unit: merging starts from the empty request. */
  function MergeAll(effects: seq<ResolvedEffects>): LockRequest {
    if effects == [] then NoLocks
    else Merge(MergeAll(effects[..|effects| - 1]), ForEffects(effects[|effects| - 1]))
  }

  /** Two requests that may be held at the same time. */
  predicate Compatible(a: LockRequest, b: LockRequest) {
    && !a.world && !b.world
    && a.readSet !! b.writeSet && a.writeSet !! b.readSet
    && (a.writeSet !! b.writeSet || (a.commutativeTool.Some? && a.commutativeTool == b.commutativeTool))
  }

  predicate CompatibleWithAll(request: LockRequest, held: seq<LockRequest>) {
    forall i | 0 <= i < |held| :: Compatible(request, held[i])
  }

  /** A tool that declares a resource both read and written asks for both locks. */
  predicate SelfConflicting(request: LockRequest) {
    !request.world && !(request.readSet !! request.writeSet)
  }

  predicate Disjoint(held: seq<LockRequest>) {
    forall i | 0 <= i < |held| :: !SelfConflicting(held[i])
  }

  predicate Pairwise(held: seq<LockRequest>) {
    forall i, j | 0 <= i < j < |held| :: Compatible(held[i], held[j])
  }

  // -------------------------------------------------------------- counting

  function ReadsOne(q: LockRequest, r: Resource): nat {
    if !q.world && r in q.readSet then 1 else 0
  }

  function WritesOne(q: LockRequest, r: Resource): nat {
    if !q.world && r in q.writeSet then 1 else 0
  }

  function Readers(held: seq<LockRequest>, r: Resource): nat {
    if held == [] then 0 else Readers(held[..|held| - 1], r) + ReadsOne(held[|held| - 1], r)
  }

  function Writers(held: seq<LockRequest>, r: Resource): nat {
    if held == [] then 0 else Writers(held[..|held| - 1], r) + WritesOne(held[|held| - 1], r)
  }

  lemma {:induction false} CountConcat(a: seq<LockRequest>, b: seq<LockRequest>, r: Resource)
    ensures Readers(a + b, r) == Readers(a, r) + Readers(b, r)
    ensures Writers(a + b, r) == Writers(a, r) + Writers(b, r)
    decreases |b|
  {
    if b == [] {
      assert a + b == a;
    } else {
      CountConcat(a, b[..|b| - 1], r);
      assert (a + b)[..|a + b| - 1] == a + b[..|b| - 1];
    }
  }

  lemma CountOne(q: LockRequest, r: Resource)
    ensures Readers([q], r) == ReadsOne(q, r) && Writers([q], r) == WritesOne(q, r)
  {
    assert [q][..0] == [];
  }

  lemma CountRemoved(held: seq<LockRequest>, i: nat, r: Resource)
    requires i < |held|
    ensures Readers(held[..i] + held[i + 1..], r) == Readers(held, r) - ReadsOne(held[i], r)
    ensures Writers(held[..i] + held[i + 1..], r) == Writers(held, r) - WritesOne(held[i], r)
  {
    CountConcat(held[..i], held[i + 1..], r);
    CountConcat([held[i]], held[i + 1..], r);
    CountConcat(held[..i], [held[i]] + held[i + 1..], r);
    CountOne(held[i], r);
    assert held == held[..i] + ([held[i]] + held[i + 1..]);
  }

  lemma {:induction false} CountPositive(held: seq<LockRequest>, r: Resource)
    ensures Readers(held, r) == 0 <==> forall i | 0 <= i < |held| :: ReadsOne(held[i], r) == 0
    ensures Writers(held, r) == 0 <==> forall i | 0 <= i < |held| :: WritesOne(held[i], r) == 0
  {
    if held != [] {
      CountPositive(held[..|held| - 1], r);
      assert forall i | 0 <= i < |held| - 1 :: held[..|held| - 1][i] == held[i];
    }
  }

  lemma RemoveOne(held: seq<LockRequest>, i: nat)
    requires i < |held|
    ensures multiset(held[..i] + held[i + 1..]) == multiset(held) - multiset{held[i]}
  {
    assert held == held[..i] + [held[i]] + held[i + 1..];
  }

  /** The counters depend on which requests are held, not on their order. */
  lemma {:induction false} CountPermuted(a: seq<LockRequest>, b: seq<LockRequest>, r: Resource)
    requires multiset(a) == multiset(b)
    ensures Readers(a, r) == Readers(b, r) && Writers(a, r) == Writers(b, r)
    decreases |a|
  {
    if a == [] {
      assert |multiset(b)| == |b|;
    } else {
      var last := a[|a| - 1];
      assert last in multiset(a);
      assert last in b;
      var i :| 0 <= i < |b| && b[i] == last;
      RemoveOne(a, |a| - 1);
      RemoveOne(b, i);
      assert a[..|a| - 1] + a[|a|..] == a[..|a| - 1];
      CountPermuted(a[..|a| - 1], b[..i] + b[i + 1..], r);
      CountRemoved(b, i, r);
    }
  }

  // ------------------------------------------------------- representation

  /** Which tool's commutative claim, if any, the writers of `r` share. */
  function WriterTool(held: seq<LockRequest>, r: Resource): Option<ToolName> {
    if held == [] then None
    else if WritesOne(held[|held| - 1], r) == 1 then held[|held| - 1].commutativeTool
    else WriterTool(held[..|held| - 1], r)
  }

  lemma {:induction false} WriterToolShared(held: seq<LockRequest>, r: Resource, i: nat)
    requires Pairwise(held) && i < |held| && WritesOne(held[i], r) == 1
    ensures WriterTool(held, r) == held[i].commutativeTool
  {
    var last := held[|held| - 1];
    if i < |held| - 1 {
      if WritesOne(last, r) == 1 {
        assert Compatible(held[i], last);
        assert r in held[i].writeSet && r in last.writeSet;
      } else {
        WriterToolShared(held[..|held| - 1], r, i);
      }
    }
  }

  /** The entry of one resource, from the requests held. */
  function Expected(held: seq<LockRequest>, r: Resource): Option<LockState> {
    if Readers(held, r) > 0 then Some(Read(Readers(held, r)))
    else if Writers(held, r) > 0 then
      var tool := WriterTool(held, r);
      if tool.Some? then Some(Commutative(tool.value, Writers(held, r))) else Some(Write)
    else None
  }

  function Lookup(resources: map<Resource, LockState>, r: Resource): Option<LockState> {
    if r in resources then Some(resources[r]) else None
  }

  ghost predicate Represents(held: seq<LockRequest>, resources: map<Resource, LockState>, running: nat,
      exclusive: bool) {
    && Pairwise(held) && Disjoint(held)
    && running == |held|
    && (exclusive <==> exists i :: 0 <= i < |held| && held[i].world)
    && forall r :: Lookup(resources, r) == Expected(held, r)
  }

  /** The table is a function of the multiset of held requests. */
  lemma TableOfMultiset(a: seq<LockRequest>, b: seq<LockRequest>, resourcesA: map<Resource, LockState>,
      resourcesB: map<Resource, LockState>, runningA: nat, runningB: nat, exclusiveA: bool, exclusiveB: bool)
    requires multiset(a) == multiset(b)
    requires Represents(a, resourcesA, runningA, exclusiveA) && Represents(b, resourcesB, runningB, exclusiveB)
    ensures resourcesA == resourcesB && runningA == runningB && exclusiveA == exclusiveB
  {
    assert |a| == |multiset(a)| == |multiset(b)| == |b|;
    assert forall q :: q in a <==> q in multiset(a);
    assert forall q :: q in b <==> q in multiset(b);
    assert exclusiveA <==> exists q :: q in a && q.world;
    assert exclusiveB <==> exists q :: q in b && q.world;
    forall r
      ensures Lookup(resourcesA, r) == Lookup(resourcesB, r)
    {
      ExpectedPermuted(a, b, r);
    }
    forall r
      ensures r in resourcesA <==> r in resourcesB
      ensures r in resourcesA ==> resourcesA[r] == resourcesB[r]
    {
      assert Lookup(resourcesA, r) == Lookup(resourcesB, r);
    }
  }

  lemma ExpectedPermuted(a: seq<LockRequest>, b: seq<LockRequest>, r: Resource)
    requires multiset(a) == multiset(b) && Pairwise(a) && Pairwise(b)
    ensures Expected(a, r) == Expected(b, r)
  {
    CountPermuted(a, b, r);
    CountPositive(a, r);
    if Writers(a, r) > 0 {
      var i :| 0 <= i < |a| && WritesOne(a[i], r) != 0;
      assert a[i] in multiset(a) && a[i] in b;
      var j :| 0 <= j < |b| && b[j] == a[i];
      WriterToolShared(a, r, i);
      WriterToolShared(b, r, j);
    }
  }

  // --------------------------------------------------------------- table

  predicate IsCompatible(resources: map<Resource, LockState>, request: LockRequest) {
    && (forall r | r in request.readSet :: r !in resources || resources[r].Read?)
    && (forall r | r in request.writeSet ::
          r !in resources ||
          (resources[r].Commutative? && request.commutativeTool == Some(resources[r].tool)))
  }

  lemma ReadersExcludeWriters(held: seq<LockRequest>, r: Resource, i: nat, j: nat)
    requires Pairwise(held) && Disjoint(held) && i < |held| && j < |held|
    ensures ReadsOne(held[i], r) == 0 || WritesOne(held[j], r) == 0
  {
    if i < j {
      assert Compatible(held[i], held[j]);
    } else if j < i {
      assert Compatible(held[j], held[i]);
    } else {
      assert !SelfConflicting(held[i]);
    }
  }

  lemma AdmitsRead(held: seq<LockRequest>, r: Resource)
    requires Pairwise(held) && Disjoint(held)
    ensures (Expected(held, r).None? || Expected(held, r).value.Read?)
       <==> forall i | 0 <= i < |held| :: WritesOne(held[i], r) == 0
  {
    CountPositive(held, r);
    if Readers(held, r) > 0 {
      var i :| 0 <= i < |held| && ReadsOne(held[i], r) != 0;
      forall j | 0 <= j < |held|
        ensures WritesOne(held[j], r) == 0
      {
        ReadersExcludeWriters(held, r, i, j);
      }
    }
  }

  lemma AdmitsWrite(held: seq<LockRequest>, r: Resource, tool: Option<ToolName>)
    requires Pairwise(held) && Disjoint(held)
    ensures (Expected(held, r).None? || (Expected(held, r).value.Commutative?
      && tool == Some(Expected(held, r).value.tool)))
       <==> forall i | 0 <= i < |held| :: ReadsOne(held[i], r) == 0
              && (WritesOne(held[i], r) == 0 || (tool.Some? && held[i].commutativeTool == tool))
  {
    CountPositive(held, r);
    if Writers(held, r) > 0 && Readers(held, r) == 0 {
      forall i | 0 <= i < |held| && WritesOne(held[i], r) == 1
        ensures WriterTool(held, r) == held[i].commutativeTool
      {
        WriterToolShared(held, r, i);
      }
    }
  }

  /** The table's test is the pairwise test against every held request. */
  lemma IsCompatibleIsPairwise(held: seq<LockRequest>, resources: map<Resource, LockState>, running: nat,
      request: LockRequest)
    requires Represents(held, resources, running, false) && !request.world
    ensures IsCompatible(resources, request) <==> CompatibleWithAll(request, held)
  {
    forall r
      ensures r !in resources || resources[r].Read? <==> forall i | 0 <= i < |held| :: WritesOne(held[i], r) == 0
      ensures r !in resources || (resources[r].Commutative? && request.commutativeTool == Some(resources[r].tool))
         <==> forall i | 0 <= i < |held| :: ReadsOne(held[i], r) == 0
                && (WritesOne(held[i], r) == 0
                     || (request.commutativeTool.Some? && held[i].commutativeTool == request.commutativeTool))
    {
      assert Lookup(resources, r) == Expected(held, r);
      AdmitsRead(held, r);
      AdmitsWrite(held, r, request.commutativeTool);
    }
    if IsCompatible(resources, request) {
      forall i | 0 <= i < |held|
        ensures Compatible(request, held[i])
      {
        assert !held[i].world;
        forall r | r in request.readSet
          ensures r !in held[i].writeSet
        {
          assert WritesOne(held[i], r) == 0;
        }
        forall r | r in request.writeSet
          ensures r !in held[i].readSet
          ensures r in held[i].writeSet ==>
            request.commutativeTool.Some? && request.commutativeTool == held[i].commutativeTool
        {
          assert ReadsOne(held[i], r) == 0;
          assert WritesOne(held[i], r) == 0
            || (request.commutativeTool.Some? && held[i].commutativeTool == request.commutativeTool);
        }
      }
    }
    if CompatibleWithAll(request, held) {
      forall r | r in request.readSet
        ensures r !in resources || resources[r].Read?
      {
        assert forall i | 0 <= i < |held| :: Compatible(request, held[i]) && WritesOne(held[i], r) == 0;
      }
      forall r | r in request.writeSet
        ensures r !in resources || (resources[r].Commutative? && request.commutativeTool == Some(resources[r].tool))
      {
        assert forall i | 0 <= i < |held| :: Compatible(request, held[i]) && ReadsOne(held[i], r) == 0;
      }
    }
  }

  // ---------------------------------------------------------- transitions

  /** What granting `request` does to the entry of `r`. */
  function AfterAcquire(before: Option<LockState>, request: LockRequest, r: Resource): Option<LockState> {
    if r in request.readSet then
      Some(Read(if before.Some? && before.value.Read? then before.value.count + 1 else 1))
    else if r in request.writeSet then
      if before.Some? && before.value.Commutative? then Some(before.value.(count := before.value.count + 1))
      else if request.commutativeTool.Some? then Some(Commutative(request.commutativeTool.value, 1))
      else Some(Write)
    else before
  }

  /** What releasing `request` does to the entry of `r`. */
  function AfterRelease(before: Option<LockState>, request: LockRequest, r: Resource): Option<LockState> {
    if r in request.readSet && before.Some? && before.value.Read? then
      if before.value.count <= 1 then None else Some(Read(before.value.count - 1))
    else if r in request.writeSet && before.Some? && before.value.Commutative? then
      if before.value.count <= 1 then None else Some(before.value.(count := before.value.count - 1))
    else if r in request.writeSet && before.Some? && before.value.Write? then None
    else before
  }

  lemma ExpectedAcquired(held: seq<LockRequest>, request: LockRequest, r: Resource)
    requires Pairwise(held + [request]) && Disjoint(held + [request]) && !request.world
    ensures Expected(held + [request], r) == AfterAcquire(Expected(held, r), request, r)
  {
    var after := held + [request];
    assert after[..|after| - 1] == held;
    CountPositive(held, r);
    forall i | 0 <= i < |held|
      ensures ReadsOne(held[i], r) == 0 || WritesOne(request, r) == 0
      ensures WritesOne(held[i], r) == 0 || ReadsOne(request, r) == 0
      ensures WritesOne(held[i], r) == 1 && WritesOne(request, r) == 1 ==>
        WriterTool(held, r) == request.commutativeTool
    {
      assert after[i] == held[i] && after[|held|] == request;
      ReadersExcludeWriters(after, r, i, |held|);
      ReadersExcludeWriters(after, r, |held|, i);
      if WritesOne(held[i], r) == 1 && WritesOne(request, r) == 1 {
        PairwisePrefix(held, [request]);
        WriterToolShared(held, r, i);
        assert Compatible(after[i], after[|held|]);
        assert r in held[i].writeSet && r in request.writeSet;
      }
    }
    assert !SelfConflicting(after[|held|]);
  }

  lemma PairwisePrefix(a: seq<LockRequest>, b: seq<LockRequest>)
    requires Pairwise(a + b) && Disjoint(a + b)
    ensures Pairwise(a) && Disjoint(a)
  {
    forall i, j | 0 <= i < j < |a|
      ensures Compatible(a[i], a[j])
    {
      assert (a + b)[i] == a[i] && (a + b)[j] == a[j];
    }
    forall i | 0 <= i < |a|
      ensures !SelfConflicting(a[i])
    {
      assert (a + b)[i] == a[i];
    }
  }

  lemma ExpectedReleased(held: seq<LockRequest>, k: nat, r: Resource)
    requires Pairwise(held) && Disjoint(held) && k < |held| && !held[k].world
    ensures Expected(held[..k] + held[k + 1..], r) == AfterRelease(Expected(held, r), held[k], r)
  {
    var after := held[..k] + held[k + 1..];
    CountRemoved(held, k, r);
    CountPositive(held, r);
    CountPositive(after, r);
    if WritesOne(held[k], r) == 1 {
      WriterToolShared(held, r, k);
    }
    if Writers(after, r) > 0 {
      var i :| 0 <= i < |after| && WritesOne(after[i], r) == 1;
      var i' := if i < k then i else i + 1;
      assert after[i] == held[i'];
      PairwiseRemoved(held, k);
      WriterToolShared(after, r, i);
      WriterToolShared(held, r, i');
    }
    forall i, j | 0 <= i < |held| && 0 <= j < |held|
      ensures ReadsOne(held[i], r) == 0 || WritesOne(held[j], r) == 0
    {
      ReadersExcludeWriters(held, r, i, j);
    }
    if held[k].commutativeTool.None? {
      WriteHasOneWriter(held, k, r);
    }
  }

  /** A plain write lock has one holder. */
  lemma WriteHasOneWriter(held: seq<LockRequest>, k: nat, r: Resource)
    requires Pairwise(held) && k < |held| && held[k].commutativeTool.None?
    ensures WritesOne(held[k], r) == 1 ==> Writers(held, r) == 1
  {
    var after := held[..k] + held[k + 1..];
    CountRemoved(held, k, r);
    CountPositive(after, r);
    if WritesOne(held[k], r) == 1 {
      forall i | 0 <= i < |after|
        ensures WritesOne(after[i], r) == 0
      {
        if i < k {
          assert Compatible(held[i], held[k]);
        } else {
          assert Compatible(held[k], held[i + 1]);
        }
      }
    }
  }

  lemma PairwiseRemoved(held: seq<LockRequest>, k: nat)
    requires Pairwise(held) && Disjoint(held) && k < |held|
    ensures Pairwise(held[..k] + held[k + 1..]) && Disjoint(held[..k] + held[k + 1..])
  {
    var after := held[..k] + held[k + 1..];
    forall i, j | 0 <= i < j < |after|
      ensures Compatible(after[i], after[j])
    {
      assert after[i] == held[if i < k then i else i + 1];
      assert after[j] == held[if j < k then j else j + 1];
    }
    forall i | 0 <= i < |after|
      ensures !SelfConflicting(after[i])
    {
      assert after[i] == held[if i < k then i else i + 1];
    }
  }

  // ---------------------------------------------------------------- class

  /** How an acquisition ends. `Panicked` is the `unreachable!` arm. */
  datatype Acquisition = Granted | Refused | Panicked

  class LockTable {
    var resources: map<Resource, LockState>
    var running: nat
    var exclusive: bool
    ghost var held: seq<LockRequest>

    ghost predicate Valid()
      reads this
    {
      Represents(held, resources, running, exclusive)
    }

    constructor ()
      ensures Valid() && held == []
    {
      resources, running, exclusive := map[], 0, false;
      held := [];
    }

    /** Counts the request in, one resource at a time; false where the code panics. */
    method Enter(request: LockRequest) returns (ok: bool)
      requires IsCompatible(resources, request)
      modifies this`resources
      ensures ok <==> request.readSet !! request.writeSet
      ensures ok ==> forall r :: Lookup(resources, r) == AfterAcquire(old(Lookup(resources, r)), request, r)
    {
      ghost var before := resources;
      var todo := request.readSet;
      while todo != {}
        invariant todo <= request.readSet
        invariant forall r ::
          Lookup(resources, r) == (if r in request.readSet
            && r !in todo then AfterAcquire(Lookup(before, r), request, r) else Lookup(before, r))
      {
        var r :| r in todo;
        assert Lookup(resources, r) == Lookup(before, r);
        var count := if r in resources then resources[r].count else 0;
        resources := resources[r := Read(count + 1)];
        todo := todo - {r};
      }
      todo := request.writeSet;
      while todo != {}
        invariant todo <= request.writeSet
        invariant forall r | r in request.writeSet && r !in todo :: r !in request.readSet
        invariant forall r ::
          Lookup(resources, r) == (if r in request.readSet
            || (r in request.writeSet && r !in todo) then AfterAcquire(Lookup(before, r), request, r)
            else Lookup(before, r))
      {
        var r :| r in todo;
        assert Lookup(resources, r) == if r in request.readSet then AfterAcquire(Lookup(before, r), request, r)
          else Lookup(before, r);
        if r in resources && resources[r].Commutative? && request.commutativeTool.Some? {
          resources := resources[r := resources[r].(count := resources[r].count + 1)];
        } else if r !in resources {
          resources := resources[r := if request.commutativeTool.Some? then Commutative(request.commutativeTool.value,
            1) else Write];
        } else {
          return false;
        }
        todo := todo - {r};
      }
      ok := true;
    }

    method TryAcquire(request: LockRequest) returns (result: Acquisition)
      requires Valid()
      modifies this
      ensures result == Refused <==> !CompatibleWithAll(request, old(held))
      ensures result == Panicked <==> CompatibleWithAll(request, old(held)) && SelfConflicting(request)
      ensures result == Refused ==>
        resources == old(resources) && running == old(running) && exclusive == old(exclusive)
      ensures result != Panicked ==> Valid() && held == if result == Granted then old(held) + [request] else old(held)
    {
      if exclusive {
        return Refused;
      }
      if request.world {
        if running > 0 {
          assert !Compatible(request, held[0]);
          return Refused;
        }
        exclusive, running := true, 1;
        held := [request];
        assert [request] == old(held) + [request];
        forall r
          ensures Lookup(resources, r) == Expected(held, r)
        {
          assert old(Lookup(resources, r)) == Expected([], r);
          CountOne(request, r);
        }
        return Granted;
      }
      IsCompatibleIsPairwise(held, resources, running, request);
      if !IsCompatible(resources, request) {
        return Refused;
      }
      var ok := Enter(request);
      if !ok {
        return Panicked;
      }
      running := running + 1;
      held := held + [request];
      AcquireRepresents(old(held), request, old(resources), resources);
      result := Granted;
    }

    /** Gives back one held request, whichever was acquired when. */
    method Release(request: LockRequest)
      requires Valid() && request in held
      modifies this
      ensures Valid()
      ensures multiset(held) == multiset(old(held)) - multiset{request}
    {
      ghost var k :| 0 <= k < |held| && held[k] == request;
      ghost var before := resources;
      RemoveOne(held, k);
      running := running - 1;
      if request.world {
        exclusive := false;
        OnlyWorld(held, k);
        held := held[..k] + held[k + 1..];
        forall r
          ensures Lookup(resources, r) == Expected(held, r)
        {
          assert Lookup(before, r) == Expected(old(held), r);
          CountRemoved(old(held), k, r);
        }
        return;
      }
      var todo := request.readSet;
      while todo != {}
        modifies this`resources
        invariant todo <= request.readSet
        invariant forall r ::
          Lookup(resources, r) == (if r in request.readSet
            && r !in todo then AfterRelease(Lookup(before, r), request, r) else Lookup(before, r))
      {
        var r :| r in todo;
        assert Lookup(resources, r) == Lookup(before, r) == Expected(old(held), r);
        HeldRead(old(held), k, r);
        if r in resources && resources[r].Read? {
          var count := resources[r].count - 1;
          resources := if count == 0 then resources - {r} else resources[r := Read(count)];
        }
        todo := todo - {r};
      }
      todo := request.writeSet;
      while todo != {}
        modifies this`resources
        invariant todo <= request.writeSet
        invariant forall r ::
          Lookup(resources, r) == (if r in request.readSet
            || (r in request.writeSet && r !in todo) then AfterRelease(Lookup(before, r), request, r)
            else Lookup(before, r))
      {
        var r :| r in todo;
        assert !SelfConflicting(old(held)[k]);
        assert Lookup(resources, r) == Lookup(before, r) == Expected(old(held), r);
        if r in resources && resources[r].Commutative? {
          var count := resources[r].count - 1;
          resources := if count == 0 then resources - {r} else resources[r := resources[r].(count := count)];
        } else if r in resources && resources[r].Write? {
          resources := resources - {r};
        }
        todo := todo - {r};
      }
      held := held[..k] + held[k + 1..];
      ReleaseRepresents(old(held), k, before, resources, exclusive);
    }
  }

  lemma HeldRead(held: seq<LockRequest>, k: nat, r: Resource)
    requires k < |held| && ReadsOne(held[k], r) == 1
    ensures Expected(held, r).Some? && Expected(held, r).value.Read?
  {
    CountPositive(held, r);
  }

  lemma OnlyWorld(held: seq<LockRequest>, k: nat)
    requires Pairwise(held) && k < |held| && held[k].world
    ensures |held| == 1
  {
    assert k > 0 ==> Compatible(held[0], held[k]);
    assert k + 1 < |held| ==> Compatible(held[k], held[k + 1]);
  }

  lemma AcquireRepresents(held: seq<LockRequest>, request: LockRequest, before: map<Resource, LockState>,
      after: map<Resource, LockState>)
    requires Represents(held, before, |held|, false) && !request.world && !SelfConflicting(request)
    requires CompatibleWithAll(request, held)
    requires forall r :: Lookup(after, r) == AfterAcquire(Lookup(before, r), request, r)
    ensures Represents(held + [request], after, |held| + 1, false)
  {
    var held' := held + [request];
    assert Pairwise(held') by {
      forall i, j | 0 <= i < j < |held'|
        ensures Compatible(held'[i], held'[j])
      {
        if j == |held| {
          assert Compatible(request, held[i]);
        }
      }
    }
    forall r
      ensures Lookup(after, r) == Expected(held', r)
    {
      assert Lookup(before, r) == Expected(held, r);
      ExpectedAcquired(held, request, r);
    }
  }

  lemma ReleaseRepresents(held: seq<LockRequest>, k: nat, before: map<Resource, LockState>, after: map<Resource,
      LockState>, exclusive: bool)
    requires Represents(held, before, |held|, exclusive) && k < |held| && !held[k].world
    requires forall r :: Lookup(after, r) == AfterRelease(Lookup(before, r), held[k], r)
    ensures Represents(held[..k] + held[k + 1..], after, |held| - 1, exclusive)
  {
    var held' := held[..k] + held[k + 1..];
    PairwiseRemoved(held, k);
    forall r
      ensures Lookup(after, r) == Expected(held', r)
    {
      assert Lookup(before, r) == Expected(held, r);
      ExpectedReleased(held, k, r);
    }
    forall i | 0 <= i < |held|
      ensures !held[i].world
    {
      assert i < k ==> Compatible(held[i], held[k]);
      assert k < i ==> Compatible(held[k], held[i]);
    }
    forall j | 0 <= j < |held'|
      ensures !held'[j].world
    {
      assert held'[j] == held[if j < k then j else j + 1];
    }
  }

  // -------------------------------------------------------------- effects

  /** For single nodes the lock test is the layering test. */
  lemma LocksMirrorEffects(a: ResolvedEffects, b: ResolvedEffects)
    requires a.Coherent() && b.Coherent()
    ensures Compatible(ForEffects(a), ForEffects(b)) <==> a.CanRunWith(b)
  {
  }

  lemma {:induction false} MergedLock(effects: seq<ResolvedEffects>)
    requires forall i | 0 <= i < |effects| :: effects[i].declared
    ensures MergeAll(effects).commutativeTool.None? && !MergeAll(effects).world
    ensures forall r :: r in MergeAll(effects).readSet <==> exists i :: 0 <= i < |effects| && r in effects[i].readSet
    ensures forall r :: r in MergeAll(effects).writeSet <==> exists i :: 0 <= i < |effects| && r in effects[i].writeSet
  {
    if effects != [] {
      var init := effects[..|effects| - 1];
      MergedLock(init);
      assert effects == init + [effects[|effects| - 1]];
    }
  }

  /** A batch unit's lock keeps out whatever any of its members would keep out. */
  lemma BatchLockCovers(effects: seq<ResolvedEffects>, other: ResolvedEffects)
    requires forall i | 0 <= i < |effects| :: effects[i].declared && effects[i].Coherent()
    requires other.Coherent() && Compatible(MergeAll(effects), ForEffects(other))
    ensures forall i | 0 <= i < |effects| :: effects[i].CanRunWith(other)
  {
    MergedLock(effects);
    forall i | 0 <= i < |effects|
      ensures effects[i].CanRunWith(other)
    {
      assert effects[i].readSet <= MergeAll(effects).readSet;
      assert effects[i].writeSet <= MergeAll(effects).writeSet;
    }
  }

  /** Members that may run together and do not contradict themselves merge into
      a lock that does not either. */
  lemma BatchLockDisjoint(effects: seq<ResolvedEffects>)
    requires forall i | 0 <= i < |effects| ::
      effects[i].declared && effects[i].Coherent() && effects[i].readSet !! effects[i].writeSet
    requires forall i, j | 0 <= i < j < |effects| :: effects[i].CanRunWith(effects[j])
    ensures !SelfConflicting(MergeAll(effects))
  {
    MergedLock(effects);
    var merged := MergeAll(effects);
    forall r | r in merged.readSet
      ensures r !in merged.writeSet
    {
      var i :| 0 <= i < |effects| && r in effects[i].readSet;
      forall j | 0 <= j < |effects|
        ensures r !in effects[j].writeSet
      {
        if i < j {
          assert effects[i].CanRunWith(effects[j]);
        } else if j < i {
          assert effects[j].CanRunWith(effects[i]);
        }
      }
    }
  }
}
