/** Concurrent units over a shared store: whatever the lock table lets overlap
    could as well have run one unit at a time, in admission order. */
module Serializability {
  import opened Plans
  import opened Locks
  import opened Stores
  import opened Scheduling
  import opened History

  /** The store, and what each unit knows: its inputs, progress and results. */
  datatype World<L> = World(locals: map<nat, L>, store: Store)

  /** One step of a unit: from what it and its dependencies know and the store,
      to what it knows next and the next store. */
  type Behaviour<!L> = (nat, map<nat, L>, Store) -> (L, Store)

  ghost predicate SameLocals<L(!new)>(units: set<nat>, a: map<nat, L>, b: map<nat, L>) {
    forall u | u in units :: (u in a <==> u in b) && (u in a ==> a[u] == b[u])
  }

  ghost function Lock(c: Config, u: nat): LockRequest
    requires u < Units(c)
  {
    c.program.units[u].lock
  }

  ghost function Deps(c: Config, u: nat): set<nat>
    requires u < |c.unitDeps|
  {
    c.unitDeps[u]
  }

  ghost function Touched(c: Config, u: nat): set<Resource>
    requires u < Units(c)
  {
    Lock(c, u).readSet + Lock(c, u).writeSet
  }

  /** A step of `u` depends on its declared resources, its own knowledge and its
      dependencies'; and changes only what it declares to write. */
  ghost predicate StepHonest<L(!new)>(c: Config, step: Behaviour<L>, u: nat)
    requires u < Units(c) == |c.unitDeps|
  {
    && (forall locals, store, r | r !in Lock(c, u).writeSet :: SameStore({r}, step(u, locals, store).1, store))
    && forall a: map<nat, L>, b: map<nat, L>, s, t | SameLocals(Deps(c, u) + {u}, a, b)
         && SameStore(Touched(c, u), s, t) ::
         step(u, a, s).0 == step(u, b, t).0 && SameStore(Touched(c, u), step(u, a, s).1, step(u, b, t).1)
  }

  function Take<L>(step: Behaviour<L>, u: nat, w: World<L>): World<L> {
    var next := step(u, w.locals, w.store);
    World(w.locals[u := next.0], next.1)
  }

  ghost predicate Commute<L(!new)>(step: Behaviour<L>, u: nat, v: nat) {
    forall w: World<L> :: Take(step, u, Take(step, v, w)) == Take(step, v, Take(step, u, w))
  }

  /** Units that declare effects keep to them, and steps of one tool that claims
      to be commutative commute where the lock table lets them overlap. */
  ghost predicate Behaved<L(!new)>(c: Config, step: Behaviour<L>)
    requires Units(c) == |c.unitDeps|
  {
    && (forall u | 0 <= u < Units(c) && !Lock(c, u).world :: StepHonest(c, step, u))
    && forall u, v | 0 <= u < Units(c) && 0 <= v < Units(c) && u != v && Apart(c, u, v)
         && Lock(c, u).commutativeTool.Some? && Lock(c, u).commutativeTool == Lock(c, v).commutativeTool
         && Compatible(Lock(c, u), Lock(c, v)) ::
         Commute(step, u, v)
  }

  /** Neither unit waits for the other. */
  ghost predicate Apart(c: Config, u: nat, v: nat)
    requires u < |c.unitDeps| && v < |c.unitDeps|
  {
    u !in Deps(c, v) && v !in Deps(c, u)
  }

  // ---------------------------------------------------------- commuting steps

  lemma DisjointCommute<L(!new)>(c: Config, step: Behaviour<L>, u: nat, v: nat, w: World<L>)
    requires u < Units(c) == |c.unitDeps| && v < Units(c) && u != v && Apart(c, u, v)
    requires StepHonest(c, step, u) && StepHonest(c, step, v)
    requires Lock(c, u).writeSet !! Touched(c, v) && Lock(c, v).writeSet !! Touched(c, u)
    ensures Take(step, u, Take(step, v, w)) == Take(step, v, Take(step, u, w))
  {
    var afterU, afterV := Take(step, u, w), Take(step, v, w);
    Unmoved(c, step, u, v, w);
    Unmoved(c, step, v, u, w);
    assert step(u, afterV.locals, afterV.store).0 == step(u, w.locals, w.store).0;
    assert step(v, afterU.locals, afterU.store).0 == step(v, w.locals, w.store).0;
    var uv, vu := Take(step, u, afterV), Take(step, v, afterU);
    assert uv.locals == vu.locals;
    forall r
      ensures SameStore({r}, uv.store, vu.store)
    {
      SameResource(c, step, u, v, w, r);
    }
    StoresEqual(uv.store, vu.store);
  }

  lemma StoresEqual(a: Store, b: Store)
    requires forall r :: SameStore({r}, a, b)
    ensures a == b
  {
    forall r
      ensures (r in a <==> r in b) && (r in a ==> a[r] == b[r])
    {
      assert SameStore({r}, a, b);
    }
  }

  /** A disjoint step of `v` changes nothing `u` looks at. */
  lemma Unmoved<L(!new)>(c: Config, step: Behaviour<L>, u: nat, v: nat, w: World<L>)
    requires u < Units(c) == |c.unitDeps| && v < Units(c) && u != v && Apart(c, u, v)
    requires StepHonest(c, step, u) && StepHonest(c, step, v)
    requires Lock(c, v).writeSet !! Touched(c, u)
    ensures var w' := Take(step, v, w);
      && step(u, w'.locals, w'.store).0 == step(u, w.locals, w.store).0
      && SameStore(Touched(c, u), step(u, w'.locals, w'.store).1, step(u, w.locals, w.store).1)
  {
    var w' := Take(step, v, w);
    forall r | r in Touched(c, u)
      ensures (r in w'.store <==> r in w.store) && (r in w'.store ==> w'.store[r] == w.store[r])
    {
      assert SameStore({r}, step(v, w.locals, w.store).1, w.store);
    }
    assert SameStore(Touched(c, u), w'.store, w.store);
    assert SameLocals(Deps(c, u) + {u}, w'.locals, w.locals);
  }

  lemma SameResource<L(!new)>(c: Config, step: Behaviour<L>, u: nat, v: nat, w: World<L>, r: Resource)
    requires u < Units(c) == |c.unitDeps| && v < Units(c) && u != v && Apart(c, u, v)
    requires StepHonest(c, step, u) && StepHonest(c, step, v)
    requires Lock(c, u).writeSet !! Touched(c, v) && Lock(c, v).writeSet !! Touched(c, u)
    ensures SameStore({r}, Take(step, u, Take(step, v, w)).store, Take(step, v, Take(step, u, w)).store)
  {
    var afterU, afterV := Take(step, u, w), Take(step, v, w);
    Unmoved(c, step, u, v, w);
    Unmoved(c, step, v, u, w);
    if r in Lock(c, u).writeSet {
      assert SameStore({r}, step(v, afterU.locals, afterU.store).1, afterU.store);
    } else if r in Lock(c, v).writeSet {
      assert SameStore({r}, step(u, afterV.locals, afterV.store).1, afterV.store);
    } else {
      assert SameStore({r}, step(v, afterU.locals, afterU.store).1, afterU.store);
      assert SameStore({r}, step(u, afterV.locals, afterV.store).1, afterV.store);
      assert SameStore({r}, step(u, w.locals, w.store).1, w.store);
      assert SameStore({r}, step(v, w.locals, w.store).1, w.store);
    }
  }

  /** Steps the lock table lets overlap commute. */
  lemma CompatibleCommute<L(!new)>(c: Config, step: Behaviour<L>, u: nat, v: nat, w: World<L>)
    requires Units(c) == |c.unitDeps| && Behaved(c, step)
    requires u < Units(c) && v < Units(c) && u != v && Apart(c, u, v) && Compatible(Lock(c, u), Lock(c, v))
    ensures Take(step, u, Take(step, v, w)) == Take(step, v, Take(step, u, w))
  {
    hide StepHonest, Take;
    if Lock(c, u).writeSet !! Lock(c, v).writeSet {
      DisjointCommute(c, step, u, v, w);
    } else {
      assert Commute(step, u, v);
    }
  }

  // ----------------------------------------------------------------- traces

  function Exec<L>(step: Behaviour<L>, trace: seq<nat>, w: World<L>): World<L> {
    if trace == [] then w else Take(step, trace[|trace| - 1], Exec(step, trace[..|trace| - 1], w))
  }

  /** The steps unit by unit, each unit's steps together, by rank. */
  function Insert(trace: seq<nat>, u: nat, rank: map<nat, nat>): seq<nat>
    requires u in rank && forall v | v in trace :: v in rank
  {
    if trace == [] || rank[trace[|trace| - 1]] <= rank[u] then trace + [u]
    else Insert(trace[..|trace| - 1], u, rank) + [trace[|trace| - 1]]
  }

  ghost predicate Ranked(trace: seq<nat>, rank: map<nat, nat>) {
    forall v | v in trace :: v in rank
  }

  lemma {:induction false} InsertMultiset(trace: seq<nat>, u: nat, rank: map<nat, nat>)
    requires u in rank && Ranked(trace, rank)
    ensures multiset(Insert(trace, u, rank)) == multiset(trace) + multiset{u}
    ensures Ranked(Insert(trace, u, rank), rank)
  {
    if !(trace == [] || rank[trace[|trace| - 1]] <= rank[u]) {
      var init, last := trace[..|trace| - 1], trace[|trace| - 1];
      assert forall v | v in init :: v in trace;
      InsertMultiset(init, u, rank);
      assert trace == init + [last];
    } else {
      assert multiset(trace + [u]) == multiset(trace) + multiset{u};
    }
    forall v | v in Insert(trace, u, rank)
      ensures v in rank
    {
      assert v in multiset(Insert(trace, u, rank));
      assert v in multiset(trace) || v == u;
    }
  }

  /** One unit at a time: the steps of a unit of lower rank come first. */
  ghost predicate SerialBy(trace: seq<nat>, rank: map<nat, nat>) {
    Ranked(trace, rank)
      && forall i, j | 0 <= i < j < |trace| :: trace[i] in rank && trace[j] in rank && rank[trace[i]] <= rank[trace[j]]
  }

  lemma {:induction false} InsertSerial(trace: seq<nat>, u: nat, rank: map<nat, nat>)
    requires u in rank && SerialBy(trace, rank)
    ensures SerialBy(Insert(trace, u, rank), rank)
    ensures forall v | v in Insert(trace, u, rank) :: v in trace || v == u
  {
    InsertMultiset(trace, u, rank);
    if trace != [] && rank[trace[|trace| - 1]] > rank[u] {
      var init, last := trace[..|trace| - 1], trace[|trace| - 1];
      assert forall v | v in init :: v in trace;
      InsertSerial(init, u, rank);
      var before := Insert(init, u, rank);
      forall i | 0 <= i < |before|
        ensures before[i] in rank && rank[before[i]] <= rank[last]
      {
        assert before[i] in before;
        if before[i] in init {
          var k :| 0 <= k < |init| && init[k] == before[i];
          assert trace[k] == before[i];
        }
      }
    }
  }

  ghost predicate Swappable<L(!new)>(step: Behaviour<L>, u: nat, v: nat) {
    forall w: World<L> {:trigger Take(step, u, Take(step, v, w))} ::
      Take(step, u, Take(step, v, w)) == Take(step, v, Take(step, u, w))
  }

  lemma {:induction false} InsertExec<L(!new)>(step: Behaviour<L>, trace: seq<nat>, u: nat, rank: map<nat, nat>,
      w: World<L>)
    requires u in rank && Ranked(trace, rank)
    requires forall v | v in trace && rank[v] > rank[u] :: Swappable(step, u, v)
    ensures Exec(step, Insert(trace, u, rank), w) == Exec(step, trace + [u], w)
  {
    hide Take;
    assert (trace + [u])[..|trace|] == trace;
    if !(trace == [] || rank[trace[|trace| - 1]] <= rank[u]) {
      var init, last := trace[..|trace| - 1], trace[|trace| - 1];
      assert forall v | v in init :: v in trace;
      InsertExec(step, init, u, rank, w);
      assert (init + [u])[..|init|] == init;
      var before := Insert(init, u, rank);
      assert (before + [last])[..|before|] == before;
      assert Swappable(step, u, last);
      assert Take(step, u, Take(step, last, Exec(step, init, w))) ==
        Take(step, last, Take(step, u, Exec(step, init, w)));
    }
  }

  function Serialize(trace: seq<nat>, rank: map<nat, nat>): (r: seq<nat>)
    requires forall v | v in trace :: v in rank
    ensures forall v | v in r :: v in rank
  {
    if trace == [] then []
    else
      assert forall v | v in trace[..|trace| - 1] :: v in trace;
      var r := Insert(Serialize(trace[..|trace| - 1], rank), trace[|trace| - 1], rank);
      InsertMultiset(Serialize(trace[..|trace| - 1], rank), trace[|trace| - 1], rank);
      r
  }

  /** Two steps out of rank order belong to units whose steps commute. */
  ghost predicate InversionsCommute<L(!new)>(step: Behaviour<L>, trace: seq<nat>, rank: map<nat, nat>)
    requires Ranked(trace, rank)
  {
    forall i, j | 0 <= i < j < |trace| && rank[trace[i]] > rank[trace[j]] :: Swappable(step, trace[j], trace[i])
  }

  lemma {:induction false} SerializeKeeps(trace: seq<nat>, rank: map<nat, nat>)
    requires Ranked(trace, rank)
    ensures SerialBy(Serialize(trace, rank), rank) && multiset(Serialize(trace, rank)) == multiset(trace)
  {
    if trace != [] {
      var init, last := trace[..|trace| - 1], trace[|trace| - 1];
      assert forall v | v in init :: v in trace;
      SerializeKeeps(init, rank);
      InsertSerial(Serialize(init, rank), last, rank);
      InsertMultiset(Serialize(init, rank), last, rank);
      assert trace == init + [last];
    }
  }

  lemma LaterSwappable<L(!new)>(step: Behaviour<L>, trace: seq<nat>, rank: map<nat, nat>, sorted: seq<nat>)
    requires trace != [] && Ranked(trace, rank) && InversionsCommute(step, trace, rank)
    requires multiset(sorted) == multiset(trace[..|trace| - 1]) && Ranked(sorted, rank)
    ensures forall v | v in sorted && rank[v] > rank[trace[|trace| - 1]] :: Swappable(step, trace[|trace| - 1], v)
  {
    hide Swappable;
    var init, last := trace[..|trace| - 1], trace[|trace| - 1];
    forall v | v in sorted && rank[v] > rank[last]
      ensures Swappable(step, last, v)
    {
      assert v in multiset(sorted);
      assert v in multiset(init);
      var i :| 0 <= i < |init| && init[i] == v;
      assert trace[i] == v && trace[|trace| - 1] == last;
    }
  }

  lemma InitInversions<L(!new)>(step: Behaviour<L>, trace: seq<nat>, rank: map<nat, nat>)
    requires trace != [] && Ranked(trace, rank) && InversionsCommute(step, trace, rank)
    ensures Ranked(trace[..|trace| - 1], rank) && InversionsCommute(step, trace[..|trace| - 1], rank)
    ensures trace[|trace| - 1] in rank
  {
    hide Swappable;
    assert forall v | v in trace[..|trace| - 1] :: v in trace;
  }

  lemma ExecAppend<L>(step: Behaviour<L>, trace: seq<nat>, u: nat, w: World<L>)
    ensures Exec(step, trace + [u], w) == Take(step, u, Exec(step, trace, w))
  {
    assert (trace + [u])[..|trace|] == trace;
  }

  /** Swapping commuting steps into serial order changes nothing. */
  lemma {:induction false} SerializeExec<L(!new)>(step: Behaviour<L>, trace: seq<nat>, rank: map<nat, nat>, w: World<L>)
    requires Ranked(trace, rank) && InversionsCommute(step, trace, rank)
    ensures Exec(step, Serialize(trace, rank), w) == Exec(step, trace, w)
  {
    hide Take, Swappable, InversionsCommute, Insert;
    if trace != [] {
      var init, last := trace[..|trace| - 1], trace[|trace| - 1];
      InitInversions(step, trace, rank);
      SerializeExec(step, init, rank, w);
      SerializeKeeps(init, rank);
      LaterSwappable(step, trace, rank, Serialize(init, rank));
      InsertExec(step, Serialize(init, rank), last, rank, w);
      ExecAppend(step, Serialize(init, rank), last, w);
    }
  }

  // -------------------------------------------------------------- run histories

  /** A step taken by `unit` when the log had `at` events. */
  datatype Work = Work(unit: nat, at: nat)

  /** Steps happen in order, each while its unit is active. */
  ghost predicate DuringRun(log: Log, work: seq<Work>) {
    && (forall i | 0 <= i < |work| :: work[i].at <= |log| && work[i].unit in ActiveIn(log[..work[i].at]))
    && forall i, j | 0 <= i < j < |work| :: work[i].at <= work[j].at
  }

  function Trace(work: seq<Work>): (trace: seq<nat>)
    ensures |trace| == |work| && forall i | 0 <= i < |work| :: trace[i] == work[i].unit
  {
    seq(|work|, i requires 0 <= i < |work| => work[i].unit)
  }

  /** When each unit was admitted. */
  ghost function AdmissionRank(log: Log): (rank: map<nat, nat>)
    ensures forall u | u in rank :: rank[u] < |log| && log[rank[u]] == Started(u)
    ensures forall u | u in StartedIn(log) :: u in rank
  {
    if log == [] then map[]
    else
      var before, last := AdmissionRank(log[..|log| - 1]), log[|log| - 1];
      if last.Started? then before[last.u := |log| - 1] else before
  }

  lemma {:induction false} WithoutSubset(s: seq<nat>, u: nat, v: nat)
    ensures v in Without(s, u) ==> v in s
  {
    if s != [] {
      WithoutSubset(s[..|s| - 1], u, v);
      assert s == s[..|s| - 1] + [s[|s| - 1]];
    }
  }

  lemma {:induction false} ActiveStarted(log: Log, u: nat)
    ensures u in ActiveIn(log) ==> u in StartedIn(log)
  {
    if log != [] {
      var before, event := log[..|log| - 1], log[|log| - 1];
      ActiveStarted(before, u);
      if event.Ended? {
        WithoutSubset(ActiveIn(before), event.u, u);
      }
    }
  }

  lemma {:induction false} ActiveDistinct(c: Config, log: Log)
    requires |c.unitDeps| == Units(c) && Legal(c, log)
    ensures Distinct(ActiveIn(log)) && Known(c, ActiveIn(log))
  {
    if log != [] {
      var before, event := log[..|log| - 1], log[|log| - 1];
      ActiveDistinct(c, before);
      var active := ActiveIn(before);
      match event
      case Started(u) =>
        ActiveStarted(before, u);
        ListedIn(active, u);
        DistinctAppend(active, u);
      case Ended(u) =>
        WithoutKeeps(c, active, u);
      case _ =>
    }
  }

  lemma ListedIn(s: seq<nat>, u: nat)
    ensures u in Listed(s) <==> u in s
  {
  }

  /** A unit active at the end was active ever since it was admitted. */
  lemma {:induction false} ActiveSince(c: Config, log: Log, i: nat, u: nat)
    requires |c.unitDeps| == Units(c) && Legal(c, log) && i <= |log|
    requires u in ActiveIn(log) && u in StartedIn(log[..i])
    ensures u in ActiveIn(log[..i])
    decreases |log|
  {
    if i == |log| {
      assert log[..i] == log;
    } else {
      var before, event := log[..|log| - 1], log[|log| - 1];
      assert before[..i] == log[..i];
      StartedGrows(before, i);
      if event.Ended? {
        WithoutSubset(ActiveIn(before), event.u, u);
      }
      ActiveSince(c, before, i, u);
    }
  }

  lemma {:induction false} StartedGrows(log: Log, i: nat)
    requires i <= |log|
    ensures StartedIn(log[..i]) <= StartedIn(log)
    decreases |log|
  {
    if i < |log| {
      StartedGrows(log[..|log| - 1], i);
      assert log[..|log| - 1][..i] == log[..i];
    } else {
      assert log[..i] == log;
    }
  }

  lemma {:induction false} ActiveUnfinished(c: Config, log: Log, u: nat)
    requires |c.unitDeps| == Units(c) && Legal(c, log) && u in ActiveIn(log)
    ensures u !in FinishedIn(log)
  {
    var before, event := log[..|log| - 1], log[|log| - 1];
    if event.Ended? {
      WithoutSubset(ActiveIn(before), event.u, u);
    }
    if !(event.Started? && event.u == u) {
      ActiveUnfinished(c, before, u);
    }
  }

  /** A unit that steps after a later-admitted one stepped was running beside it:
      their locks are compatible and neither waited for the other. */
  lemma InversionOverlaps(c: Config, log: Log, early: nat, late: nat, y: nat, x: nat)
    requires |c.unitDeps| == Units(c) && Legal(c, log) && early <= late <= |log|
    requires y in ActiveIn(log[..early]) && x in ActiveIn(log[..late])
    requires y in AdmissionRank(log) && x in AdmissionRank(log) && AdmissionRank(log)[x] < AdmissionRank(log)[y]
    ensures x < Units(c) && y < Units(c) && x != y && Apart(c, x, y) && Compatible(Lock(c, y), Lock(c, x))
  {
    var k, kx := AdmissionRank(log)[y], AdmissionRank(log)[x];
    StartedBefore(c, log, early, y, k);
    LegalAt(c, log, k);
    LegalAt(c, log, kx);
    LegalPrefix(c, log, late);
    LegalPrefix(c, log, k);
    StartedAt(log[..k], kx);
    assert log[..late][..k] == log[..k];
    ActiveSince(c, log[..late], k, x);
    ActiveUnfinished(c, log[..k], x);
    FinishedGrows(log[..k], kx);
    assert log[..k][..kx] == log[..kx];
  }

  /** A unit is active only after its admission. */
  lemma StartedBefore(c: Config, log: Log, at: nat, u: nat, k: nat)
    requires |c.unitDeps| == Units(c) && Legal(c, log) && at <= |log| && u in ActiveIn(log[..at])
    requires k < |log| && log[k] == Started(u)
    ensures k < at
  {
    ActiveStarted(log[..at], u);
    LegalAt(c, log, k);
    if at <= k {
      assert log[..k][..at] == log[..at];
      StartedGrows(log[..k], at);
    }
  }

  lemma AllRanked(log: Log, work: seq<Work>)
    requires DuringRun(log, work)
    ensures Ranked(Trace(work), AdmissionRank(log))
  {
    forall u | u in Trace(work)
      ensures u in AdmissionRank(log)
    {
      var i :| 0 <= i < |work| && Trace(work)[i] == u;
      ActiveStarted(log[..work[i].at], u);
      StartedGrows(log, work[i].at);
    }
  }

  /** Any run over a shared store gives the results and the final store of
      running its units one at a time, in admission order. */
  lemma RunsAreSerializable<L(!new)>(c: Config, log: Log, step: Behaviour<L>, work: seq<Work>, w: World<L>)
    requires |c.unitDeps| == Units(c) && Legal(c, log) && DuringRun(log, work) && Behaved(c, step)
    ensures Ranked(Trace(work), AdmissionRank(log))
    ensures var serial := Serialize(Trace(work), AdmissionRank(log));
      && SerialBy(serial, AdmissionRank(log))
      && multiset(serial) == multiset(Trace(work))
      && Exec(step, serial, w) == Exec(step, Trace(work), w)
  {
    hide Behaved, Legal, Take, Exec, Serialize, SerialBy;
    var rank, trace := AdmissionRank(log), Trace(work);
    AllRanked(log, work);
    forall i, j | 0 <= i < j < |trace| && rank[trace[i]] > rank[trace[j]]
      ensures Swappable(step, trace[j], trace[i])
    {
      InversionOverlaps(c, log, work[i].at, work[j].at, trace[i], trace[j]);
      OverlapSwaps(c, step, trace[j], trace[i]);
    }
    SerializeKeeps(trace, rank);
    SerializeExec(step, trace, rank, w);
  }

  lemma OverlapSwaps<L(!new)>(c: Config, step: Behaviour<L>, x: nat, y: nat)
    requires |c.unitDeps| == Units(c) && Behaved(c, step)
    requires x < Units(c) && y < Units(c) && x != y && Apart(c, x, y) && Compatible(Lock(c, y), Lock(c, x))
    ensures Swappable(step, x, y)
  {
    forall w: World<L>
      ensures Take(step, x, Take(step, y, w)) == Take(step, y, Take(step, x, w))
    {
      CompatibleCommute(c, step, y, x, w);
    }
  }
}
