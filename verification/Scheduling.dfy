/** The scheduler as a state machine: where each unit is, what each node's
    outcome is, and what every step keeps. `Engine` performs these steps. */
module Scheduling {
  import opened Wrappers
  import opened Plans
  import opened Calls
  import opened Locks
  import opened Semantics

  /** An engine's fixed parts: the program, its unit graph, and its limits. */
  datatype Config = Config(
    program: Program,
    unitDeps: seq<set<nat>>,
    unitDependents: seq<set<nat>>,
    readyKeys: seq<nat>,
    toolLimits: map<ToolName, nat>,
    globalLimit: Option<nat>,
    failFast: bool,
    cancellable: bool)

  function Units(c: Config): nat {
    |c.program.units|
  }

  ghost predicate UnitRank(c: Config, rank: seq<nat>) {
    && |rank| == Units(c) == |c.unitDeps|
    && forall u, d | 0 <= u < Units(c) && d in c.unitDeps[u] :: d < Units(c) && rank[d] < rank[u]
  }

  /** References go to the unit's own dependencies. */
  ghost predicate CoversData(c: Config) {
    && |c.unitDeps| == Units(c)
    && forall u, d | 0 <= u < Units(c) && DependsOn(c.program, u, d) ::
         d in c.program.unitOf && c.program.unitOf[d] in c.unitDeps[u]
  }

  ghost predicate ConfigOk(c: Config) {
    && ProgramOk(c.program)
    && |c.unitDeps| == |c.unitDependents| == |c.readyKeys| == Units(c)
    && (forall u, v | 0 <= u < Units(c) && 0 <= v < Units(c) :: v in c.unitDependents[u] <==> u in c.unitDeps[v])
    && (forall u, v | 0 <= u < Units(c) && v in c.unitDependents[u] :: v < Units(c))
    && (exists rank :: UnitRank(c, rank))
    && CoversData(c)
    && (forall u | 0 <= u < Units(c) :: !SelfConflicting(c.program.units[u].lock))
  }

  /** A run's mutable part. `hand` is the unit popped or joined but not yet put
      anywhere; `finished` are the units whose members all have outcomes. */
  datatype State = State(
    result: Assignment,
    remaining: seq<nat>,
    ready: set<nat>,
    blocked: seq<nat>,
    inFlight: map<nat, seq<PreparedMember>>,
    hand: set<nat>,
    finished: set<nat>)

  function Listed(s: seq<nat>): set<nat> {
    set u | u in s
  }

  /** Everything that is no longer waiting for a dependency. */
  ghost function Placed(s: State): set<nat> {
    s.ready + Listed(s.blocked) + s.inFlight.Keys + s.hand + s.finished
  }

  function Left(c: Config, u: nat, finished: set<nat>): nat
    requires u < |c.unitDeps|
  {
    |c.unitDeps[u] - finished|
  }

  // ------------------------------------------------------------- invariant

  /** `remaining` counts the unfinished dependencies of each unit. */
  ghost predicate Counted(c: Config, s: State) {
    && |s.remaining| == |c.unitDeps| == Units(c)
    && (forall u | u in s.finished :: u < Units(c))
    && forall u | 0 <= u < Units(c) :: s.remaining[u] == Left(c, u, s.finished)
  }

  ghost predicate Apart(s: State) {
    && (forall i, j | 0 <= i < j < |s.blocked| :: s.blocked[i] != s.blocked[j])
    && s.ready !! Listed(s.blocked) && s.ready !! s.inFlight.Keys && s.ready !! s.hand && s.ready !! s.finished
    && Listed(s.blocked) !! s.inFlight.Keys && Listed(s.blocked) !! s.hand && Listed(s.blocked) !! s.finished
    && s.inFlight.Keys !! s.hand && s.inFlight.Keys !! s.finished && s.hand !! s.finished
  }

  /** Each unit is in one place: waiting, ready, blocked, in flight, in hand or
      finished; and it stops waiting when its last dependency finishes. */
  ghost predicate PlacesOk(c: Config, s: State) {
    && Apart(s)
    && |s.remaining| == Units(c)
    && forall u: nat :: u in Placed(s) <==> u < Units(c) && s.remaining[u] == 0
  }

  /** What has an outcome already among the members of a unit that was not
      dispatched was settled while preparing it. */
  ghost predicate SettledInline(c: Config, result: Assignment, u: nat)
    requires ProgramOk(c.program)
  {
    && u < Units(c)
    && forall n | n in c.program.units[u].members && n in result ::
         !Stopped(result[n]) && Prepare(c.program, n, result).Settled?
  }

  /** A dispatched unit carries exactly its members that passed the gates. */
  ghost predicate Dispatched(c: Config, result: Assignment, u: nat, prepared: seq<PreparedMember>)
    requires ProgramOk(c.program)
  {
    && u < Units(c)
    && prepared == PreparedMembers(c.program, c.program.units[u].members, result) != []
    && forall n | n in c.program.units[u].members :: n in result <==> Prepare(c.program, n, result).Settled?
  }

  ghost predicate AllSettled(c: Config, result: Assignment, u: nat) {
    u < Units(c) && forall n | n in c.program.units[u].members :: n in result
  }

  ghost predicate NoneSettled(c: Config, result: Assignment, u: nat) {
    u < Units(c) && forall n | n in c.program.units[u].members :: n !in result
  }

  ghost predicate ResultsOk(c: Config, s: State)
    requires ProgramOk(c.program)
  {
    && Consistent(c.program, s.result)
    && (forall u | u in s.finished :: AllSettled(c, s.result, u))
    && (forall u | 0 <= u < Units(c) && u !in Placed(s) :: NoneSettled(c, s.result, u))
    && (forall u | u in s.ready || u in s.blocked :: SettledInline(c, s.result, u))
    && (forall u | u in s.inFlight :: Dispatched(c, s.result, u, s.inFlight[u]))
  }

  ghost predicate Inv(c: Config, s: State) {
    ConfigOk(c) && Counted(c, s) && PlacesOk(c, s) && ResultsOk(c, s)
  }

  // --------------------------------------------------------- consequences

  lemma LeftZero(c: Config, u: nat, finished: set<nat>)
    requires u < |c.unitDeps|
    ensures Left(c, u, finished) == 0 <==> c.unitDeps[u] <= finished
  {
    var left := c.unitDeps[u] - finished;
    if left == {} {
      assert forall d | d in c.unitDeps[u] :: d in finished || d in left;
    }
    if c.unitDeps[u] <= finished {
      assert left == {};
    }
  }

  /** What a placed unit refers to is settled. */
  lemma PlacedIsReady(c: Config, s: State, u: nat)
    requires Inv(c, s) && u in Placed(s)
    ensures u < Units(c) && UnitReady(c.program, u, s.result)
  {
    hide Left, DependsOn, Consistent, SettledInline, Dispatched, NoneSettled, UnitRank;
    assert s.remaining[u] == 0;
    LeftZero(c, u, s.finished);
    forall d | DependsOn(c.program, u, d)
      ensures d in s.result
    {
      assert d in c.program.unitOf && c.program.unitOf[d] in c.unitDeps[u];
      assert AllSettled(c, s.result, c.program.unitOf[d]);
    }
  }

  lemma {:induction false} AllFinishedAt(c: Config, s: State, rank: seq<nat>, u: nat)
    requires Inv(c, s) && UnitRank(c, rank) && Placed(s) == s.finished && u < Units(c)
    ensures u in s.finished
    decreases rank[u]
  {
    hide Left, ResultsOk, Apart, CoversData;
    forall d | d in c.unitDeps[u]
      ensures d in s.finished
    {
      AllFinishedAt(c, s, rank, d);
    }
    LeftZero(c, u, s.finished);
  }

  /** With nothing ready, blocked or running, every node has its outcome. */
  lemma NodesOfUnits(c: Config, result: Assignment)
    requires ProgramOk(c.program) && forall u | 0 <= u < Units(c) :: AllSettled(c, result, u)
    ensures forall n | n in c.program.nodes :: n in result
  {
    hide UnitOk;
    forall n | n in c.program.nodes
      ensures n in result
    {
      assert AllSettled(c, result, c.program.unitOf[n]);
    }
  }

  lemma RunEnds(c: Config, s: State)
    requires Inv(c, s) && s.ready == {} && s.blocked == [] && s.inFlight == map[] && s.hand == {}
    ensures Complete(c.program, s.result)
    ensures forall u | 0 <= u < Units(c) :: u in s.finished
  {
    hide Left, AllSettled, CoversData, Explained, UnitRank, ProgramOk, Dispatched, SettledInline, NoneSettled, Apart;
    var rank :| UnitRank(c, rank);
    assert Placed(s) == s.finished;
    forall u | 0 <= u < Units(c)
      ensures u in s.finished
    {
      AllFinishedAt(c, s, rank, u);
    }
    NodesOfUnits(c, s.result);
  }

  // ------------------------------------------------------------ result steps

  /** The outcome an engine may record for a member of the unit in hand. */
  ghost predicate MayRecord(c: Config, result: Assignment, n: NodeId, outcome: Outcome)
    requires ProgramOk(c.program)
  {
    && n in c.program.nodes
    && (n in result ==> result[n] == outcome)
    && ((Stopped(outcome) && Unharmed(c.program, n, result))
         || outcome == UnitOutcome(c.program, c.program.unitOf[n], n, result))
  }

  lemma RecordExtends(result: Assignment, n: NodeId, outcome: Outcome)
    requires n in result ==> result[n] == outcome
    ensures Extends(result, result[n := outcome])
  {
  }

  lemma RecordConsistent(c: Config, result: Assignment, n: NodeId, outcome: Outcome)
    requires ProgramOk(c.program) && Consistent(c.program, result) && MayRecord(c, result, n, outcome)
    requires UnitReady(c.program, c.program.unitOf[n], result)
    ensures Consistent(c.program, result[n := outcome])
  {
    var after := result[n := outcome];
    RecordExtends(result, n, outcome);
    hide UnitOutcome, UnitReady, Extends, Stopped;
    forall m | m in after
      ensures Explained(c.program, m, after)
    {
      if m in result {
        ExplainedStays(c.program, m, result, after);
      } else {
        ExtendedSameForUnit(c.program, c.program.unitOf[n], result, after);
        OutcomeStable(c.program, c.program.unitOf[n], n, result, after);
      }
    }
  }

  lemma InlineStays(c: Config, u: nat, result: Assignment, after: Assignment)
    requires ProgramOk(c.program) && SettledInline(c, result, u) && UnitReady(c.program, u, result)
      && Extends(result, after)
    requires forall n | n in c.program.units[u].members :: n in after ==> n in result
    ensures SettledInline(c, after, u)
  {
    ExtendedSameForUnit(c.program, u, result, after);
    hide Prepare, SameForUnit, UnitReady;
    forall n | n in c.program.units[u].members && n in after
      ensures !Stopped(after[n]) && Prepare(c.program, n, after).Settled?
    {
      PrepareStable(c.program, u, n, result, after);
    }
  }

  lemma DispatchedStays(c: Config, u: nat, prepared: seq<PreparedMember>, result: Assignment, after: Assignment)
    requires ProgramOk(c.program) && Dispatched(c, result, u, prepared) && UnitReady(c.program, u, result)
      && Extends(result, after)
    requires forall n | n in c.program.units[u].members :: n in after ==> n in result
    ensures Dispatched(c, after, u, prepared)
  {
    ExtendedSameForUnit(c.program, u, result, after);
    PreparedStable(c.program, u, c.program.units[u].members, result, after);
    hide Prepare, SameForUnit, UnitReady;
    forall n | n in c.program.units[u].members
      ensures n in after <==> Prepare(c.program, n, after).Settled?
    {
      PrepareStable(c.program, u, n, result, after);
    }
  }

  /** An outcome of the unit in hand is nobody else's. */
  lemma OtherUnits(c: Config, n: NodeId, result: Assignment, outcome: Outcome)
    requires ProgramOk(c.program) && n in c.program.nodes
    ensures forall u, m | 0 <= u < Units(c) && u != c.program.unitOf[n] && m in c.program.units[u].members ::
      m in result[n := outcome] ==> m in result
  {
    hide UnitOk;
  }

  lemma OthersStay(c: Config, s: State, n: NodeId, outcome: Outcome, u: nat)
    requires Inv(c, s) && n in c.program.nodes && c.program.unitOf[n] in s.hand
    requires Extends(s.result, s.result[n := outcome])
    ensures u in s.ready || u in s.blocked ==> SettledInline(c, s.result[n := outcome], u)
    ensures u in s.inFlight ==> Dispatched(c, s.result[n := outcome], u, s.inFlight[u])
    ensures u < Units(c) && u !in Placed(s) ==> NoneSettled(c, s.result[n := outcome], u)
  {
    OtherUnits(c, n, s.result, outcome);
    hide Left, UnitOutcome, UnitReady, Dispatched, SettledInline, Stopped, ProgramOk, CoversData, UnitRank, Consistent,
      Extends;
    if u in s.ready || u in s.blocked {
      PlacedIsReady(c, s, u);
      InlineStays(c, u, s.result, s.result[n := outcome]);
    } else if u in s.inFlight {
      PlacedIsReady(c, s, u);
      DispatchedStays(c, u, s.inFlight[u], s.result, s.result[n := outcome]);
    } else if u < Units(c) && u !in Placed(s) {
      assert NoneSettled(c, s.result, u);
    }
  }

  lemma SamePlaces(c: Config, s: State, after: State)
    requires after == s.(result := after.result) && Counted(c, s) && PlacesOk(c, s)
    ensures Counted(c, after) && PlacesOk(c, after) && Placed(after) == Placed(s)
  {
    hide Left;
  }

  lemma HandIsPlaced(c: Config, s: State)
    requires Inv(c, s)
    ensures ProgramOk(c.program) && s.hand <= Placed(s)
  {
  }

  /** Recording an outcome for the unit in hand keeps everything else. */
  lemma RecordStep(c: Config, s: State, n: NodeId, outcome: Outcome)
    requires Inv(c, s) && MayRecord(c, s.result, n, outcome) && c.program.unitOf[n] in s.hand
    ensures Inv(c, s.(result := s.result[n := outcome]))
  {
    var after := s.(result := s.result[n := outcome]);
    hide Left, Placed, Counted, PlacesOk, UnitOutcome, UnitReady, Dispatched, SettledInline, ConfigOk, Consistent,
      NoneSettled, ProgramOk, Stopped;
    HandIsPlaced(c, s);
    RecordExtends(s.result, n, outcome);
    PlacedIsReady(c, s, c.program.unitOf[n]);
    RecordConsistent(c, s.result, n, outcome);
    SamePlaces(c, s, after);
    hide MayRecord;
    forall u: nat
      ensures u in s.ready || u in s.blocked ==> SettledInline(c, after.result, u)
      ensures u in s.inFlight ==> Dispatched(c, after.result, u, s.inFlight[u])
      ensures u < Units(c) && u !in Placed(s) ==> NoneSettled(c, after.result, u)
    {
      OthersStay(c, s, n, outcome, u);
    }
  }

  // ------------------------------------------------------------- place steps

  lemma PopStep(c: Config, s: State, u: nat)
    requires Inv(c, s) && u in s.ready && s.hand == {}
    ensures Inv(c, s.(ready := s.ready - {u}, hand := {u})) && SettledInline(c, s.result, u)
  {
    hide Left, Consistent, Dispatched, SettledInline, UnitRank, CoversData;
    assert Placed(s.(ready := s.ready - {u}, hand := {u})) == Placed(s);
  }

  lemma BlockStep(c: Config, s: State, u: nat)
    requires Inv(c, s) && s.hand == {u} && SettledInline(c, s.result, u)
    ensures Inv(c, s.(hand := {}, blocked := s.blocked + [u]))
  {
    hide Left, Consistent, Dispatched, SettledInline, UnitRank, CoversData;
    assert Listed(s.blocked + [u]) == Listed(s.blocked) + {u};
    assert Placed(s.(hand := {}, blocked := s.blocked + [u])) == Placed(s);
  }

  lemma RequeueStep(c: Config, s: State)
    requires Inv(c, s)
    ensures Inv(c, s.(blocked := [], ready := s.ready + Listed(s.blocked)))
  {
    hide Left, Consistent, Dispatched, SettledInline, UnitRank, CoversData;
    assert Placed(s.(blocked := [], ready := s.ready + Listed(s.blocked))) == Placed(s);
  }

  lemma StartStep(c: Config, s: State, u: nat, prepared: seq<PreparedMember>)
    requires Inv(c, s) && s.hand == {u} && Dispatched(c, s.result, u, prepared)
    ensures Inv(c, s.(hand := {}, inFlight := s.inFlight[u := prepared]))
  {
    hide Left, Consistent, Dispatched, SettledInline, UnitRank, CoversData;
    assert Placed(s.(hand := {}, inFlight := s.inFlight[u := prepared])) == Placed(s);
  }

  lemma JoinStep(c: Config, s: State, u: nat)
    requires Inv(c, s) && s.hand == {} && u in s.inFlight
    ensures Inv(c, s.(hand := {u}, inFlight := s.inFlight - {u})) && Dispatched(c, s.result, u, s.inFlight[u])
  {
    hide Left, Consistent, Dispatched, SettledInline, UnitRank, CoversData;
    assert Placed(s.(hand := {u}, inFlight := s.inFlight - {u})) == Placed(s);
  }

  /** What `unblock` does to the counters and the queue. */
  ghost predicate Unblocked(c: Config, u: nat, remaining: seq<nat>, ready: set<nat>, remaining': seq<nat>,
      ready': set<nat>) {
    && |remaining'| == |remaining| == |c.unitDeps|
    && (forall v | 0 <= v < |remaining| :: remaining'[v] == if u in c.unitDeps[v]
         && remaining[v] > 0 then remaining[v] - 1 else remaining[v])
    && (forall v: nat :: v in ready' <==> v in ready || (v < |remaining| && u in c.unitDeps[v] && remaining'[v] == 0))
  }

  lemma LeftStep(c: Config, v: nat, finished: set<nat>, u: nat)
    requires v < |c.unitDeps| && u !in finished
    ensures Left(c, v, finished + {u}) == Left(c, v, finished) - if u in c.unitDeps[v] then 1 else 0
  {
    if u in c.unitDeps[v] {
      assert c.unitDeps[v] - (finished + {u}) == (c.unitDeps[v] - finished) - {u};
    } else {
      assert c.unitDeps[v] - (finished + {u}) == c.unitDeps[v] - finished;
    }
  }

  lemma FinishCounts(c: Config, s: State, u: nat, remaining': seq<nat>, ready': set<nat>)
    requires Inv(c, s) && s.hand == {u} && Unblocked(c, u, s.remaining, s.ready, remaining', ready')
    ensures Counted(c, s.(hand := {}, finished := s.finished + {u}, remaining := remaining', ready := ready'))
    ensures forall v | 0 <= v < Units(c) && u in c.unitDeps[v] :: s.remaining[v] > 0
  {
    hide Left, ResultsOk, UnitRank, CoversData;
    assert u in Placed(s) && u !in s.finished;
    forall v | 0 <= v < Units(c)
      ensures remaining'[v] == Left(c, v, s.finished + {u})
      ensures u in c.unitDeps[v] ==> s.remaining[v] > 0
    {
      LeftStep(c, v, s.finished, u);
    }
  }

  ghost function AfterFinish(s: State, u: nat, remaining': seq<nat>, ready': set<nat>): State {
    s.(hand := {}, finished := s.finished + {u}, remaining := remaining', ready := ready')
  }

  lemma NewlyReady(c: Config, s: State, u: nat, remaining': seq<nat>, ready': set<nat>, v: nat)
    requires PlacesOk(c, s) && s.hand == {u} && |c.unitDeps| == Units(c)
    requires Unblocked(c, u, s.remaining, s.ready, remaining', ready')
    requires forall w | 0 <= w < Units(c) && u in c.unitDeps[w] :: s.remaining[w] > 0
    ensures s.ready <= ready'
    ensures v in ready' && v !in s.ready ==> v !in Placed(s)
    ensures v in Placed(AfterFinish(s, u, remaining', ready')) <==> v in Placed(s) + ready'
    ensures v in Placed(s) + ready' <==> v < Units(c) && remaining'[v] == 0
  {
    hide Apart;
  }

  lemma FinishPlaces(c: Config, s: State, u: nat, remaining': seq<nat>, ready': set<nat>)
    requires PlacesOk(c, s) && s.hand == {u} && |c.unitDeps| == Units(c)
    requires Unblocked(c, u, s.remaining, s.ready, remaining', ready')
    requires forall w | 0 <= w < Units(c) && u in c.unitDeps[w] :: s.remaining[w] > 0
    ensures PlacesOk(c, AfterFinish(s, u, remaining', ready'))
    ensures forall v | v in ready' && v !in s.ready :: v !in Placed(s)
    ensures Placed(AfterFinish(s, u, remaining', ready')) == Placed(s) + ready'
  {
    forall v: nat
      ensures s.ready <= ready'
      ensures v in ready' && v !in s.ready ==> v !in Placed(s)
      ensures v in Placed(AfterFinish(s, u, remaining', ready')) <==> v in Placed(s) + ready'
      ensures v in Placed(s) + ready' <==> v < Units(c) && remaining'[v] == 0
    {
      NewlyReady(c, s, u, remaining', ready', v);
    }
    hide Unblocked;
  }

  lemma FinishResults(c: Config, s: State, after: State, u: nat)
    requires ProgramOk(c.program) && ResultsOk(c, s) && PlacesOk(c, s) && PlacesOk(c, after)
      && AllSettled(c, s.result, u)
    requires after.result == s.result && after.finished == s.finished + {u} && after.blocked == s.blocked
      && after.inFlight == s.inFlight
    requires forall v | v in after.ready && v !in s.ready :: v !in Placed(s)
    requires Placed(s) <= Placed(after)
    ensures ResultsOk(c, after)
  {
    hide Consistent, Dispatched, SettledInline, AllSettled, NoneSettled, ProgramOk;
    forall v | v in after.ready || v in after.blocked
      ensures SettledInline(c, s.result, v)
    {
      assert v in Placed(after) && v < Units(c);
      if v !in s.ready && v !in s.blocked {
        assert NoneSettled(c, s.result, v);
        NoneIsInline(c, s.result, v);
      }
    }
  }

  lemma NoneIsInline(c: Config, result: Assignment, u: nat)
    requires ProgramOk(c.program) && NoneSettled(c, result, u)
    ensures SettledInline(c, result, u)
  {
    hide Prepare, Stopped;
  }

  /** A finished unit leaves the hand and frees what waited only for it. */
  lemma FinishStep(c: Config, s: State, u: nat, remaining': seq<nat>, ready': set<nat>)
    requires Inv(c, s) && s.hand == {u} && AllSettled(c, s.result, u)
    requires Unblocked(c, u, s.remaining, s.ready, remaining', ready')
    ensures Inv(c, AfterFinish(s, u, remaining', ready'))
  {
    assert ProgramOk(c.program) && |c.unitDeps| == Units(c);
    hide ConfigOk, Counted, PlacesOk, ResultsOk, Unblocked, Left, Placed, AllSettled, ProgramOk;
    FinishCounts(c, s, u, remaining', ready');
    FinishPlaces(c, s, u, remaining', ready');
    FinishResults(c, s, AfterFinish(s, u, remaining', ready'), u);
  }
}
