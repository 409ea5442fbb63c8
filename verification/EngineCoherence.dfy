/** The cache machine driven by an engine: whatever the engine admits, releases
    and finishes is what coherence needs. What a unit's finish drops are the
    declared writes of its members that succeeded; so every hit of an engine's
    run is fresh as long as nothing else was changed. */
module EngineCoherence {
  import opened Wrappers
  import opened Plans
  import opened Locks
  import opened Stores
  import opened Semantics
  import opened Scheduling
  import opened History
  import opened Serializability
  import opened Caches
  import C = Coherence

  /** An event of the engine, something a unit does with the cache, or a change
      of the store by one of its nodes. */
  datatype Move = Engine(event: Event) | Unit(act: C.Act) | Write(node: NodeId, store: Store)

  ghost function EventsOf(moves: seq<Move>): Log {
    if moves == [] then []
    else
      var before := EventsOf(moves[..|moves| - 1]);
      if moves[|moves| - 1].Engine? then before + [moves[|moves| - 1].event] else before
  }

  /** What runs: which units cache, what each node declares, and what each is
      recorded with when its unit is absorbed. */
  datatype Setting = Setting(
    k: C.Calling,
    c: Config,
    caching: nat -> bool,
    effects: map<NodeId, ResolvedEffects>,
    recorded: Assignment,
    cap: nat)

  ghost predicate Drops(x: Setting, n: NodeId, r: Resource) {
    n in x.recorded && x.recorded[n].Done? && n in x.effects && r in x.effects[n].writeSet
  }

  /** `absorb`: the writes of the members that succeeded. */
  ghost function Dropped(x: Setting, u: nat): set<Resource> {
    if u >= Units(x.c) then {}
    else
      var members := x.c.program.units[u].members;
      set n, r | n in members && n in x.effects && r in x.effects[n].writeSet && Drops(x, n, r) :: r
  }

  ghost function HolderOf(x: Setting, u: nat): C.Holder
    requires u < Units(x.c)
  {
    C.Holder(Lock(x.c, u), x.caching(u))
  }

  ghost predicate AbsorbsNow(s: C.State, u: nat) {
    s.absorbing.Some? && s.absorbing.value.0 == u
  }

  /** What an engine's event does: an admission takes the locks, a release gives
      them back, and a dispatched unit's finish has dropped what it wrote. */
  ghost predicate EventStep(x: Setting, s: C.State, event: Event, s': C.State)
    requires x.cap > 0
  {
    match event
    case Started(u) => u < Units(x.c) ==> s' == C.After(x.k, s, C.Admit(u, HolderOf(x, u)), x.cap)
    case Ended(u) => u in s.active ==> s' == C.After(x.k, s, C.Release(u), x.cap)
    case Finished(u) =>
      if AbsorbsNow(s, u)
      then s' == C.After(x.k, s, C.Absorb(u, Dropped(x, u)), x.cap)
      else s' == s
    case Halted => s' == s
  }

  /** What a running unit may do without the engine. */
  ghost predicate UnitStep(x: Setting, s: C.State, act: C.Act, s': C.State)
    requires x.cap > 0
  {
    (act.Hit? || act.Call? || act.Keep?) && C.Allowed(x.k, s, act) && s' == C.After(x.k, s, act, x.cap)
  }

  /** A node changes the store while its unit runs. */
  ghost predicate WriteStep(x: Setting, s: C.State, n: NodeId, store: Store, s': C.State)
    requires x.cap > 0
  {
    && n in x.c.program.unitOf
    && C.Allowed(x.k, s, C.Change(x.c.program.unitOf[n], store))
    && s' == C.After(x.k, s, C.Change(x.c.program.unitOf[n], store), x.cap)
  }

  /** Some legal log of the engine, with the units' own acts anywhere between. */
  ghost predicate EngineRun(x: Setting, states: seq<C.State>, moves: seq<Move>) {
    && x.cap > 0 && |states| == |moves| + 1 && |x.c.unitDeps| == Units(x.c)
    && ProgramOk(x.c.program)
    && states[0] == C.State(states[0].store, states[0].items, map[], None, map[], {})
    && C.Coherent(x.k, states[0].store, states[0].items)
    && Legal(x.c, EventsOf(moves))
    && forall i | 0 <= i < |moves| :: Moved(x, states[i], moves[i], states[i + 1])
  }

  ghost predicate Moved(x: Setting, s: C.State, move: Move, s': C.State)
    requires x.cap > 0
  {
    match move
    case Engine(event) => EventStep(x, s, event, s')
    case Unit(act) => UnitStep(x, s, act, s')
    case Write(n, store) => WriteStep(x, s, n, store, s')
  }

  /** What a node changes it declares to write, and it reports success. */
  ghost predicate Accounted(x: Setting, n: NodeId, changed: set<Resource>) {
    forall r | r in changed :: Drops(x, n, r)
  }

  ghost predicate AllAccounted(x: Setting, states: seq<C.State>, moves: seq<Move>)
    requires |states| == |moves| + 1
  {
    forall i | 0 <= i < |moves| && moves[i].Write? ::
      Accounted(x, moves[i].node, C.Changed(states[i].store, moves[i].store))
  }

  /** What each unit changed, its finish will drop. */
  ghost predicate Covered(x: Setting, s: C.State) {
    forall u | u in s.wrote :: s.wrote[u] <= Dropped(x, u)
  }

  // ---------------------------------------------------------------- tracking

  /** The cache machine holds the locks of the engine's active units, and absorbs
      the one that ended and is not finished. */
  ghost predicate Tracks(x: Setting, log: Log, s: C.State) {
    && s.active.Keys == Listed(ActiveIn(log))
    && (forall u | u in s.active :: u < Units(x.c) && s.active[u] == HolderOf(x, u))
    && (s.absorbing.None? <==> EndedIn(log) <= FinishedIn(log))
    && (s.absorbing.Some? ==> EndedIn(log) - FinishedIn(log) == {s.absorbing.value.0})
  }

  lemma StartTracks(x: Setting, log: Log, s: C.State, u: nat, s': C.State)
    requires |x.c.unitDeps| == Units(x.c) && x.cap > 0 && Legal(x.c, log) && LegalEvent(x.c, log, Started(u))
    requires Tracks(x, log, s) && EventStep(x, s, Started(u), s')
    ensures C.Allowed(x.k, s, C.Admit(u, HolderOf(x, u))) && s' == C.After(x.k, s, C.Admit(u, HolderOf(x, u)), x.cap)
    ensures Tracks(x, log + [Started(u)], s')
  {
    ActiveStarted(log, u);
    ListedIn(ActiveIn(log), u);
    Appended(log, Started(u));
    ListedAppend(ActiveIn(log), u);
    forall v | v in s.active
      ensures Compatible(Lock(x.c, u), s.active[v].lock)
    {
      ListedIn(ActiveIn(log), v);
    }
  }

  lemma EndTracks(x: Setting, log: Log, s: C.State, u: nat, s': C.State)
    requires |x.c.unitDeps| == Units(x.c) && x.cap > 0 && Legal(x.c, log) && LegalEvent(x.c, log, Ended(u))
    requires Tracks(x, log, s) && EventStep(x, s, Ended(u), s')
    ensures C.Allowed(x.k, s, C.Release(u)) && s' == C.After(x.k, s, C.Release(u), x.cap)
    ensures Tracks(x, log + [Ended(u)], s')
  {
    ListedIn(ActiveIn(log), u);
    ActiveUnfinished(x.c, log, u);
    ActiveDistinct(x.c, log);
    WithoutKeeps(x.c, ActiveIn(log), u);
    Appended(log, Ended(u));
  }

  lemma FinishTracks(x: Setting, log: Log, s: C.State, u: nat, s': C.State)
    requires |x.c.unitDeps| == Units(x.c) && x.cap > 0 && LegalEvent(x.c, log, Finished(u))
    requires Tracks(x, log, s) && Covered(x, s) && EventStep(x, s, Finished(u), s')
    ensures s' == s || (AbsorbsNow(s, u) && C.Allowed(x.k, s, C.Absorb(u, Dropped(x, u)))
                        && s' == C.After(x.k, s, C.Absorb(u, Dropped(x, u)), x.cap))
    ensures Tracks(x, log + [Finished(u)], s')
  {
    Appended(log, Finished(u));
    if s.absorbing.Some? {
      assert s.absorbing.value.0 in EndedIn(log) - FinishedIn(log);
    }
  }

  lemma WriteTracks(x: Setting, log: Log, s: C.State, n: NodeId, store: Store, s': C.State)
    requires x.cap > 0 && ProgramOk(x.c.program) && Tracks(x, log, s) && Covered(x, s)
    requires WriteStep(x, s, n, store, s') && Accounted(x, n, C.Changed(s.store, store))
    ensures Tracks(x, log, s') && Covered(x, s')
  {
    var u := x.c.program.unitOf[n];
    assert u < Units(x.c) && n in x.c.program.units[u].members;
    hide ProgramOk, C.Changed;
    assert C.Changed(s.store, store) <= Dropped(x, u);
  }

  lemma CoverStays(x: Setting, s: C.State, s': C.State)
    requires Covered(x, s)
      && forall u | u in s'.wrote :: s'.wrote[u] == {} || (u in s.wrote && s'.wrote[u] == s.wrote[u])
    ensures Covered(x, s')
  {
    hide Dropped;
  }

  /** One move of the engine or a unit keeps the cache coherent and in step. */
  lemma MoveKeeps(x: Setting, log: Log, s: C.State, move: Move, s': C.State)
    requires |x.c.unitDeps| == Units(x.c) && x.cap > 0 && Legal(x.c, log) && C.ReadsCover(x.k)
    requires move.Engine? ==> LegalEvent(x.c, log, move.event)
    requires Tracks(x, log, s) && Covered(x, s) && C.Inv(x.k, s) && Moved(x, s, move, s') && ProgramOk(x.c.program)
    requires move.Write? ==> Accounted(x, move.node, C.Changed(s.store, move.store))
    ensures C.Inv(x.k, s') && Tracks(x, if move.Engine? then log + [move.event] else log, s') && Covered(x, s')
  {
    hide C.Inv, Legal, LegalEvent, C.ReadsCover, ProgramOk, Covered, Accounted, Dropped, C.Changed;
    match move
    case Unit(act) =>
      C.ActKeeps(x.k, s, act, x.cap);
      CoverStays(x, s, s');
    case Write(n, store) =>
      C.ActKeeps(x.k, s, C.Change(x.c.program.unitOf[n], store), x.cap);
      WriteTracks(x, log, s, n, store, s');
    case Engine(event) =>
      EventCovers(x, log, s, event, s');
      hide Tracks, C.Allowed, C.After;
      match event
      case Started(u) =>
        StartTracks(x, log, s, u, s');
        C.ActKeeps(x.k, s, C.Admit(u, HolderOf(x, u)), x.cap);
      case Ended(u) =>
        EndTracks(x, log, s, u, s');
        C.ActKeeps(x.k, s, C.Release(u), x.cap);
      case Finished(u) =>
        FinishTracks(x, log, s, u, s');
        if s' != s {
          C.ActKeeps(x.k, s, C.Absorb(u, Dropped(x, u)), x.cap);
        }
      case Halted => HaltTracks(x, log, s);
  }

  lemma EventCovers(x: Setting, log: Log, s: C.State, event: Event, s': C.State)
    requires x.cap > 0 && Tracks(x, log, s) && Covered(x, s) && EventStep(x, s, event, s')
    requires |x.c.unitDeps| == Units(x.c) && LegalEvent(x.c, log, event)
    ensures Covered(x, s')
  {
    match event
    case Ended(u) => ListedIn(ActiveIn(log), u);
    case _ =>
    hide Dropped, LegalEvent;
    CoverStays(x, s, s');
  }

  lemma HaltTracks(x: Setting, log: Log, s: C.State)
    requires Tracks(x, log, s)
    ensures Tracks(x, log + [Halted], s)
  {
    Appended(log, Halted);
  }

  lemma {:induction false} LegalEvents(c: Config, moves: seq<Move>, i: nat)
    requires |c.unitDeps| == Units(c) && Legal(c, EventsOf(moves)) && i < |moves|
    ensures Legal(c, EventsOf(moves[..i]))
    ensures moves[i].Engine? ==> LegalEvent(c, EventsOf(moves[..i]), moves[i].event)
    ensures EventsOf(moves[..i + 1]) == EventsOf(moves[..i]) + if moves[i].Engine? then [moves[i].event] else []
    decreases |moves|
  {
    var before := moves[..|moves| - 1];
    assert moves[..i + 1][..i] == moves[..i];
    if moves[|moves| - 1].Engine? {
      var log := EventsOf(moves);
      assert log[..|log| - 1] == EventsOf(before);
    }
    if i < |moves| - 1 {
      LegalEvents(c, before, i);
      assert before[..i] == moves[..i] && before[..i + 1] == moves[..i + 1];
    } else {
      assert moves[..i] == before && moves[..i + 1] == moves;
    }
  }

  lemma {:induction false} RunTracks(x: Setting, states: seq<C.State>, moves: seq<Move>, i: nat)
    requires C.ReadsCover(x.k) && EngineRun(x, states, moves) && AllAccounted(x, states, moves) && i <= |moves|
    ensures C.Inv(x.k, states[i]) && Tracks(x, EventsOf(moves[..i]), states[i]) && Covered(x, states[i])
  {
    hide C.ReadsCover, C.Inv, Moved, Legal, ProgramOk, Accounted;
    if i == 0 {
      C.StartIsCoherent(x.k, states[0].store, states[0].items);
      assert moves[..0] == [];
      assert Listed(ActiveIn([])) == {};
    } else {
      RunTracks(x, states, moves, i - 1);
      LegalEvents(x.c, moves, i - 1);
      assert EventsOf(moves[..i - 1]) + [] == EventsOf(moves[..i - 1]);
      MoveKeeps(x, EventsOf(moves[..i - 1]), states[i - 1], moves[i - 1], states[i]);
    }
  }

  /** Over every run of the engine from a coherent cache in which what changes is
      declared by the node that changes it, and that node reports success, every
      hit returns what making the call at that moment would return. */
  lemma EngineHitsAreFresh(x: Setting, states: seq<C.State>, moves: seq<Move>, i: nat)
    requires C.ReadsCover(x.k) && EngineRun(x, states, moves) && AllAccounted(x, states, moves)
    requires i < |moves| && moves[i].Unit? && moves[i].act.Hit?
    ensures Find(states[i].items, moves[i].act.key).Some?
    ensures Find(states[i].items, moves[i].act.key).value.output == x.k.answer(moves[i].act.key, states[i].store)
  {
    RunTracks(x, states, moves, i);
    assert Moved(x, states[i], moves[i], states[i + 1]);
    C.HitIsFresh(x.k, states[i], moves[i].act.unit, moves[i].act.key);
  }

  /** And once every unit is finished, the next run starts from a coherent cache. */
  lemma EngineLeavesCoherent(x: Setting, states: seq<C.State>, moves: seq<Move>)
    requires C.ReadsCover(x.k) && EngineRun(x, states, moves) && AllAccounted(x, states, moves)
    requires ActiveIn(EventsOf(moves)) == [] && EndedIn(EventsOf(moves)) <= FinishedIn(EventsOf(moves))
    ensures C.Coherent(x.k, states[|moves|].store, states[|moves|].items)
  {
    RunTracks(x, states, moves, |moves|);
    assert moves[..|moves|] == moves;
    var last := states[|moves|];
    C.QuietIsCoherent(x.k, last);
  }
}
