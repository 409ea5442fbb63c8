/** The execution engine: the scheduling loop over its mutable state.

    The ghost fields say what the concrete ones stand for: `result` is the
    outcome of each settled node, `hand` the unit popped or joined but not yet
    put anywhere, `finished` the units whose dependents were unblocked, and
    `log` the history of the run. */
module Engines {
  import opened Wrappers
  import opened Json
  import opened Refs
  import opened Plans
  import opened Resolve
  import opened Calls
  import opened Locks
  import opened Semantics
  import opened Scheduling
  import opened History
  import opened Evaluation

  // -------------------------------------------------------------- reporting

  ghost function ErrorsOf(a: Assignment): map<NodeId, ToolError> {
    map n | n in a && a[n].Failed? :: a[n].error
  }

  ghost function SkipsOf(a: Assignment): map<NodeId, SkipReason> {
    map n | n in a && a[n].Skipped? :: a[n].reason
  }

  ghost predicate Mirrors(result: Assignment, outputs: Outputs, dead: set<NodeId>, errors: map<NodeId, ToolError>,
      skipped: map<NodeId, SkipReason>) {
    && outputs == OutputsOf(result)
    && dead == DeadOf(result)
    && errors == ErrorsOf(result)
    && skipped == SkipsOf(result)
  }

  lemma MirrorsRecord(result: Assignment, n: NodeId, outcome: Outcome)
    requires n in result ==> result[n] == outcome
    ensures OutputsOf(result[n := outcome]) == if outcome.Done? then OutputsOf(result)[n := outcome.value]
      else OutputsOf(result)
    ensures DeadOf(result[n := outcome]) == if outcome.Done? then DeadOf(result) else DeadOf(result) + {n}
    ensures ErrorsOf(result[n := outcome]) == if outcome.Failed? then ErrorsOf(result)[n := outcome.error]
      else ErrorsOf(result)
    ensures SkipsOf(result[n := outcome]) == if outcome.Skipped? then SkipsOf(result)[n := outcome.reason]
      else SkipsOf(result)
  {
  }

  lemma SettledMirrors(result: Assignment, outputs: Outputs, dead: set<NodeId>, errors: map<NodeId, ToolError>,
      skipped: map<NodeId, SkipReason>)
    requires Mirrors(result, outputs, dead, errors, skipped)
    ensures outputs.Keys + errors.Keys + skipped.Keys == result.Keys
    ensures outputs.Keys !! errors.Keys && outputs.Keys !! skipped.Keys && errors.Keys !! skipped.Keys
  {
  }

  // ------------------------------------------------------------------ stops

  /** Every limit lets at least one unit run. */
  predicate Positive(c: Config) {
    (c.globalLimit.Some? ==> c.globalLimit.value > 0) && forall tool | tool in c.toolLimits :: c.toolLimits[tool] > 0
  }

  ghost predicate AnyFailed(result: Assignment) {
    exists n :: n in result && result[n].Failed?
  }

  /** Why the engine stopped, and what an engine that did not stop left out. */
  ghost predicate StopOk(c: Config, result: Assignment, stop: Option<SkipReason>) {
    match stop
    case None => (Positive(c) ==> NothingStopped(result)) && (c.failFast ==> !AnyFailed(result))
    case Some(NotRun) => c.failFast && AnyFailed(result) && (Positive(c) ==> StoppedFor(result, NotRun))
    case Some(Cancelled) => c.cancellable && (Positive(c) ==> StoppedFor(result, Cancelled))
    case _ => false
  }

  /** Whatever the stop left out is skipped for its reason. */
  ghost predicate StoppedFor(result: Assignment, reason: SkipReason) {
    forall n | n in result && Stopped(result[n]) :: result[n] == Skipped(reason)
  }

  function AfterRecord(c: Config, outcome: Outcome, stop: Option<SkipReason>): Option<SkipReason> {
    if outcome.Failed? && stop.None? && c.failFast then Some(NotRun) else stop
  }

  ghost function LogStop(log: Log, before: Option<SkipReason>, after: Option<SkipReason>): Log {
    if before == after then log else log + [Halted]
  }

  lemma LogStopKeeps(log: Log, before: Option<SkipReason>, after: Option<SkipReason>)
    ensures StartedIn(LogStop(log, before, after)) == StartedIn(log)
    ensures ActiveIn(LogStop(log, before, after)) == ActiveIn(log)
    ensures FinishedIn(LogStop(log, before, after)) == FinishedIn(log)
  {
    Appended(log, Halted);
  }

  // -------------------------------------------------------------- invariant

  ghost predicate SerialOk(c: Config, log: Log) {
    forall position :: Serial(c, position) ==> InOrder(position, log)
  }

  ghost predicate Keeps(c: Config, s: State, held: seq<LockRequest>, total: nat, toolInFlight: map<ToolName, nat>,
      stop: Option<SkipReason>, log: Log) {
    && Inv(c, s)
    && Admission(c, ActiveIn(log), held, total, toolInFlight)
    && HistoryOk(c, s, log, stop.Some?)
    && StopOk(c, s.result, stop)
    && SerialOk(c, log)
  }

  /** Under positive limits a unit is only blocked while another one runs. */
  ghost predicate Unstuck(c: Config, s: State) {
    Positive(c) && s.blocked != [] ==> s.inFlight != map[]
  }

  lemma SerialLog(c: Config, log: Log, event: Event)
    requires SerialOk(c, log) && !event.Started?
    ensures SerialOk(c, log + [event])
  {
    hide InOrder, Serial;
    forall position | Serial(c, position)
      ensures InOrder(position, log + [event])
    {
      InOrderAppend(position, log, event);
    }
  }

  lemma StopRecord(c: Config, result: Assignment, stop: Option<SkipReason>, n: NodeId, outcome: Outcome)
    requires StopOk(c, result, stop) && (n in result ==> result[n] == outcome)
    requires Stopped(outcome) ==> stop == Some(outcome.reason) || !Positive(c)
    ensures StopOk(c, result[n := outcome], AfterRecord(c, outcome, stop))
  {
    var after := result[n := outcome];
    assert after[n] == outcome;
    if AnyFailed(result) {
      var m :| m in result && result[m].Failed?;
      assert m in after && after[m].Failed?;
    }
    if outcome.Failed? {
      assert n in after && after[n].Failed?;
    }
  }

  lemma HaltKeeps(c: Config, s: State, held: seq<LockRequest>, total: nat, toolInFlight: map<ToolName, nat>, log: Log)
    requires Keeps(c, s, held, total, toolInFlight, None, log) && c.cancellable
    ensures Keeps(c, s, held, total, toolInFlight, Some(Cancelled), log + [Halted])
  {
    hide Inv, Admission, SerialOk;
    Appended(log, Halted);
    HaltHistory(c, s, log);
    SerialLog(c, log, Halted);
  }

  lemma RecordKeeps(c: Config, s: State, held: seq<LockRequest>, total: nat, toolInFlight: map<ToolName, nat>,
      stop: Option<SkipReason>, log: Log, n: NodeId, outcome: Outcome)
    requires Keeps(c, s, held, total, toolInFlight, stop, log)
    requires ProgramOk(c.program) && MayRecord(c, s.result, n, outcome) && c.program.unitOf[n] in s.hand
    requires Stopped(outcome) ==> stop == Some(outcome.reason) || !Positive(c)
    ensures Keeps(c, s.(result := s.result[n := outcome]), held, total, toolInFlight, AfterRecord(c, outcome, stop),
      LogStop(log, stop, AfterRecord(c, outcome, stop)))
  {
    hide Inv, Admission, SerialOk, StopOk, ProgramOk, UnitOutcome, Legal;
    RecordStep(c, s, n, outcome);
    StopRecord(c, s.result, stop, n, outcome);
    Appended(log, Halted);
    if stop.None? {
      HaltHistory(c, s, log);
    }
    SerialLog(c, log, Halted);
  }

  lemma PopKeeps(c: Config, s: State, held: seq<LockRequest>, total: nat, toolInFlight: map<ToolName, nat>,
      stop: Option<SkipReason>, log: Log, u: nat)
    requires Keeps(c, s, held, total, toolInFlight, stop, log) && u in s.ready && s.hand == {}
    ensures Keeps(c, s.(ready := s.ready - {u}, hand := {u}), held, total, toolInFlight, stop, log)
    ensures ProgramOk(c.program) && SettledInline(c, s.result, u)
    ensures u !in StartedIn(log) && u !in s.finished && u !in Listed(s.blocked) && u !in s.inFlight && u < Units(c)
    ensures u !in Listed(ActiveIn(log))
  {
    hide Admission, SerialOk, StopOk, ProgramOk, Legal, ResultsOk, Counted, ConfigOk;
    PopStep(c, s, u);
    InvIsWellFormed(c, s);
    assert u in Placed(s);
  }

  lemma InvIsWellFormed(c: Config, s: State)
    requires Inv(c, s)
    ensures ProgramOk(c.program)
  {
  }

  lemma BlockKeeps(c: Config, s: State, held: seq<LockRequest>, total: nat, toolInFlight: map<ToolName, nat>,
      stop: Option<SkipReason>, log: Log, u: nat)
    requires Keeps(c, s, held, total, toolInFlight, stop, log) && s.hand == {u}
    requires ProgramOk(c.program) && SettledInline(c, s.result, u)
    requires u !in StartedIn(log) && u !in Listed(ActiveIn(log))
    ensures Keeps(c, s.(hand := {}, blocked := s.blocked + [u]), held, total, toolInFlight, stop, log)
  {
    hide Inv, Admission, SerialOk, StopOk, ProgramOk, Legal;
    BlockStep(c, s, u);
  }

  lemma RequeueKeeps(c: Config, s: State, held: seq<LockRequest>, total: nat, toolInFlight: map<ToolName, nat>,
      stop: Option<SkipReason>, log: Log)
    requires Keeps(c, s, held, total, toolInFlight, stop, log)
    ensures Keeps(c, s.(blocked := [], ready := s.ready + Listed(s.blocked)), held, total, toolInFlight, stop, log)
  {
    hide Inv, Admission, SerialOk, StopOk, ProgramOk, Legal;
    RequeueStep(c, s);
  }

  lemma FinishKeeps(c: Config, s: State, held: seq<LockRequest>, total: nat, toolInFlight: map<ToolName, nat>,
      stop: Option<SkipReason>, log: Log, u: nat, remaining': seq<nat>, ready': set<nat>)
    requires Keeps(c, s, held, total, toolInFlight, stop, log) && s.hand == {u}
    requires AllSettled(c, s.result, u) && u !in ActiveIn(log)
    requires Unblocked(c, u, s.remaining, s.ready, remaining', ready')
    ensures Keeps(c, AfterFinish(s, u, remaining', ready'), held, total, toolInFlight, stop, log + [Finished(u)])
  {
    hide Admission, SerialOk, ProgramOk, Legal, Unblocked, AllSettled, ResultsOk, ConfigOk, Counted, PlacesOk;
    FinishStep(c, s, u, remaining', ready');
    FinishHistory(c, s, log, stop.Some?, u, remaining', ready');
    Appended(log, Finished(u));
    SerialLog(c, log, Finished(u));
  }

  /** The engine admits `u`, popped as the foremost ready unit. */
  lemma AdmitKeeps(c: Config, s: State, held: seq<LockRequest>, total: nat, toolInFlight: map<ToolName, nat>,
      stop: Option<SkipReason>, log: Log, u: nat)
    requires Keeps(c, s, held, total, toolInFlight, stop, log) && s.hand == {u} && u < Units(c)
    requires u !in StartedIn(log) && u !in s.finished && u !in Listed(ActiveIn(log))
    requires stop.Some? ==> HaltedBy(c, log, u)
    requires CompatibleWithAll(c.program.units[u].lock, held)
    requires c.globalLimit.Some? ==> total < c.globalLimit.value
    requires c.program.units[u].tool in c.toolLimits ==>
      CountOf(toolInFlight, c.program.units[u].tool) < c.toolLimits[c.program.units[u].tool]
    requires Foremost(c, s.ready, u) && Unstuck(c, s)
    ensures Keeps(c, s, held + [c.program.units[u].lock], total + 1,
              toolInFlight[c.program.units[u].tool := CountOf(toolInFlight, c.program.units[u].tool) + 1], stop,
                log + [Started(u)])
  {
    hide ProgramOk, Legal, ResultsOk, ConfigOk, Counted, PlacesOk, Serial, InOrder, StopOk, Compatible;
    var active := ActiveIn(log);
    OverlapsActive(c, active, held, total, toolInFlight, u);
    AdmitOne(c, active, held, total, toolInFlight, u);
    StartHistory(c, s, log, stop.Some?, u);
    Appended(log, Started(u));
    forall position | Serial(c, position)
      ensures InOrder(position, log + [Started(u)])
    {
      NothingRuns(c, s, log, position, held, total, toolInFlight, stop);
      SerialStart(c, s, position, u);
      InOrderAppend(position, log, Started(u));
    }
  }

  lemma OverlapsActive(c: Config, active: seq<nat>, held: seq<LockRequest>, total: nat, toolInFlight: map<ToolName,
      nat>, u: nat)
    requires Admission(c, active, held, total, toolInFlight) && u < Units(c)
      && CompatibleWithAll(c.program.units[u].lock, held)
    ensures MayOverlap(c, u, active)
  {
    HeldIsActive(c, active, held, total, toolInFlight);
    hide Admission;
    OverlapsHeld(c, active, held, u);
  }

  lemma NothingRuns(c: Config, s: State, log: Log, position: seq<nat>, held: seq<LockRequest>, total: nat,
      toolInFlight: map<ToolName, nat>, stop: Option<SkipReason>)
    requires Keeps(c, s, held, total, toolInFlight, stop, log) && Serial(c, position) && Unstuck(c, s)
    requires c.globalLimit.Some? ==> total < c.globalLimit.value
    ensures s.inFlight == map[] && s.blocked == []
  {
    hide Inv, SerialOk, StopOk, Legal;
    assert ActiveIn(log) == [];
    assert Listed([]) == {};
  }

  lemma StartKeeps(c: Config, s: State, held: seq<LockRequest>, total: nat, toolInFlight: map<ToolName, nat>,
      stop: Option<SkipReason>, log: Log, u: nat, members: seq<PreparedMember>)
    requires Keeps(c, s, held, total, toolInFlight, stop, log) && s.hand == {u} && u in Listed(ActiveIn(log))
    requires ProgramOk(c.program) && Dispatched(c, s.result, u, members)
    ensures Keeps(c, s.(hand := {}, inFlight := s.inFlight[u := members]), held, total, toolInFlight, stop, log)
  {
    hide Inv, Admission, SerialOk, StopOk, ProgramOk, Legal, Dispatched;
    StartStep(c, s, u, members);
  }

  lemma JoinKeeps(c: Config, s: State, held: seq<LockRequest>, total: nat, toolInFlight: map<ToolName, nat>,
      stop: Option<SkipReason>, log: Log, u: nat)
    requires Keeps(c, s, held, total, toolInFlight, stop, log) && s.hand == {} && u in s.inFlight
    ensures Keeps(c, s.(hand := {u}, inFlight := s.inFlight - {u}), held, total, toolInFlight, stop, log)
    ensures ProgramOk(c.program) && Dispatched(c, s.result, u, s.inFlight[u])
    ensures u in Listed(ActiveIn(log)) && u < Units(c) && u !in s.finished
  {
    hide Admission, SerialOk, StopOk, ProgramOk, Legal, Dispatched, ResultsOk, Counted, ConfigOk;
    JoinStep(c, s, u);
    InvIsWellFormed(c, s);
    assert u in Placed(s);
  }

  lemma ReleaseKeeps(c: Config, s: State, held: seq<LockRequest>, held': seq<LockRequest>, total: nat,
      toolInFlight: map<ToolName, nat>, stop: Option<SkipReason>, log: Log, u: nat)
    requires Keeps(c, s, held, total, toolInFlight, stop, log) && s.hand == {u} && u in Listed(ActiveIn(log))
      && u !in s.inFlight
    requires u < Units(c) && multiset(held') == multiset(held) - multiset{c.program.units[u].lock}
    ensures total > 0 && CountOf(toolInFlight, c.program.units[u].tool) > 0
    ensures Keeps(c, s, held', total - 1,
              toolInFlight[c.program.units[u].tool := CountOf(toolInFlight, c.program.units[u].tool) - 1],
              stop, log + [Ended(u)])
    ensures u !in Listed(ActiveIn(log + [Ended(u)]))
  {
    hide Inv, SerialOk, StopOk, ProgramOk, Legal;
    ReleaseOne(c, ActiveIn(log), held, held', total, toolInFlight, u);
    EndHistory(c, s, log, stop.Some?, u);
    Appended(log, Ended(u));
    SerialLog(c, log, Ended(u));
  }

  // ----------------------------------------------------------------- lemmas

  ghost predicate InPrepared(prepared: seq<PreparedMember>, n: NodeId) {
    exists i :: 0 <= i < |prepared| && prepared[i].node == n
  }

  ghost predicate FromMember(p: Program, members: seq<NodeId>, a: Assignment, member: PreparedMember) {
    member.node in members && member.node in p.nodes && Prepare(p, member.node, a) == Ready(member)
  }

  lemma {:induction false} PreparedAreMembers(p: Program, members: seq<NodeId>, a: Assignment)
    requires forall n | n in members :: n in p.nodes && p.nodes[n].id == n
    ensures forall i | 0 <= i < |PreparedMembers(p, members, a)| ::
      FromMember(p, members, a, PreparedMembers(p, members, a)[i])
    ensures forall n | n in members && Prepare(p, n, a).Ready? :: InPrepared(PreparedMembers(p, members, a), n)
  {
    if members != [] {
      var n, init := members[|members| - 1], members[..|members| - 1];
      PreparedAreMembers(p, init, a);
      PreparedNode(p, n, a);
      hide Prepare;
      var before, after := PreparedMembers(p, init, a), PreparedMembers(p, members, a);
      forall i | 0 <= i < |after|
        ensures FromMember(p, members, a, after[i])
      {
        if i < |before| {
          assert FromMember(p, init, a, before[i]);
        }
      }
      forall m | m in members && Prepare(p, m, a).Ready?
        ensures InPrepared(after, m)
      {
        if m in init {
          var i :| 0 <= i < |before| && before[i].node == m;
          assert after[i].node == m;
        } else {
          assert after[|before|].node == m;
        }
      }
    }
  }

  lemma PreparedNode(p: Program, n: NodeId, a: Assignment)
    requires n in p.nodes && p.nodes[n].id == n
    ensures Prepare(p, n, a).Ready? ==> Prepare(p, n, a).member.node == n
  {
  }

  /** What `PrepareMembers` has done after going through `members`. */
  ghost predicate Gated(c: Config, result: Assignment, u: nat, members: seq<NodeId>, prepared: seq<PreparedMember>)
    requires ProgramOk(c.program)
  {
    && u < Units(c)
    && (forall n | n in members :: n in c.program.units[u].members)
    && SettledInline(c, result, u)
    && (forall n | n in members && Prepare(c.program, n, result).Settled? :: n in result)
    && prepared == PreparedMembers(c.program, members, result)
  }

  /** Settling one member the way preparation settles it changes no other gate. */
  lemma GateSettled(c: Config, result: Assignment, u: nat, members: seq<NodeId>, prepared: seq<PreparedMember>,
      n: NodeId)
    requires ProgramOk(c.program) && Gated(c, result, u, members, prepared) && UnitReady(c.program, u, result)
    requires n in c.program.units[u].members && n in c.program.nodes && Prepare(c.program, n, result).Settled?
    requires !Stopped(Prepare(c.program, n, result).outcome)
    requires n in result ==> result[n] == Prepare(c.program, n, result).outcome
    ensures Gated(c, result[n := Prepare(c.program, n, result).outcome], u, members + [n], prepared)
  {
    hide SameForUnit, UnitReady, ProgramOk, Stopped, Prepare, Extends;
    var after := result[n := Prepare(c.program, n, result).outcome];
    RecordExtends(result, n, Prepare(c.program, n, result).outcome);
    ExtendedSameForUnit(c.program, u, result, after);
    PreparedStable(c.program, u, members, result, after);
    assert (members + [n])[..|members|] == members;
    MembersAreNodes(c.program, u);
    forall m | m in c.program.units[u].members
      ensures Prepare(c.program, m, after) == Prepare(c.program, m, result)
    {
      PrepareStable(c.program, u, m, result, after);
    }
  }

  lemma MemberIsNode(p: Program, u: nat, n: NodeId)
    requires ProgramOk(p) && u < |p.units| && n in p.units[u].members
    ensures n in p.nodes && p.unitOf[n] == u && p.nodes[n].id == n
  {
  }

  lemma GateReady(c: Config, result: Assignment, u: nat, members: seq<NodeId>, prepared: seq<PreparedMember>, n: NodeId)
    requires ProgramOk(c.program) && Gated(c, result, u, members, prepared)
    requires n in c.program.units[u].members && n in c.program.nodes && Prepare(c.program, n, result).Ready?
    ensures Gated(c, result, u, members + [n], prepared + [Prepare(c.program, n, result).member])
  {
    hide ProgramOk, Prepare;
    assert (members + [n])[..|members|] == members;
  }

  /** What preparation settles a member as is what the unit's run would report. */
  lemma SettledMayRecord(c: Config, result: Assignment, u: nat, n: NodeId)
    requires ProgramOk(c.program) && u < Units(c) && SettledInline(c, result, u) && n in c.program.units[u].members
    requires Consistent(c.program, result)
    requires n in c.program.nodes && Prepare(c.program, n, result).Settled?
    ensures MayRecord(c, result, n, Prepare(c.program, n, result).outcome)
    ensures !Stopped(Prepare(c.program, n, result).outcome)
  {
    MemberIsNode(c.program, u, n);
    SettledIsReal(c.program, n, result);
    if n in result {
      assert Explained(c.program, n, result);
    }
  }

  lemma SettledIsReal(p: Program, n: NodeId, a: Assignment)
    requires n in p.nodes && Prepare(p, n, a).Settled?
    ensures !Stopped(Prepare(p, n, a).outcome)
  {
  }

  /** A gated unit with something left is a dispatched one. */
  lemma GatedIsDispatched(c: Config, result: Assignment, u: nat, prepared: seq<PreparedMember>)
    requires ProgramOk(c.program) && u < Units(c) && Gated(c, result, u, c.program.units[u].members, prepared)
    ensures prepared != [] ==> Dispatched(c, result, u, prepared)
    ensures prepared == [] ==> AllSettled(c, result, u)
  {
    hide Prepare;
    MembersAreNodes(c.program, u);
    PreparedAreMembers(c.program, c.program.units[u].members, result);
  }

  lemma MembersAreNodes(p: Program, u: nat)
    requires ProgramOk(p) && u < |p.units|
    ensures MembersKnown(p, u)
    ensures forall n | n in p.units[u].members :: n in p.nodes && p.nodes[n].id == n && p.unitOf[n] == u
    ensures !p.units[u].batch ==> |p.units[u].members| == 1
  {
  }

  /** A unit that lost a member to preparation and kept another is a batch. */
  lemma LostAndKept(c: Config, result: Assignment, u: nat, prepared: seq<PreparedMember>, n: NodeId)
    requires ProgramOk(c.program) && Dispatched(c, result, u, prepared) && n in c.program.units[u].members
      && n in result
    ensures c.program.units[u].batch
  {
    hide ProgramOk, Prepare;
    MembersAreNodes(c.program, u);
    PreparedAreMembers(c.program, c.program.units[u].members, result);
    assert FromMember(c.program, c.program.units[u].members, result, prepared[0]);
  }

  // --------------------------------------------------------------- absorbing

  /** What `Absorb` has recorded after the first `k` results. */
  ghost predicate Absorbed(c: Config, result: Assignment, u: nat, prepared: seq<PreparedMember>, k: nat)
    requires ProgramOk(c.program)
  {
    && u < Units(c)
    && k <= |prepared|
    && prepared == PreparedMembers(c.program, c.program.units[u].members, result)
    && (forall n | n in c.program.units[u].members && Prepare(c.program, n, result).Settled? :: n in result)
    && (forall n | n in c.program.units[u].members && n in result && Prepare(c.program, n, result).Ready? ::
         result[n] == UnitOutcome(c.program, u, n, result))
    && forall i | 0 <= i < k :: prepared[i].node in result
  }

  lemma DispatchedIsAbsorbed(c: Config, result: Assignment, u: nat, prepared: seq<PreparedMember>)
    requires ProgramOk(c.program) && Dispatched(c, result, u, prepared)
    ensures Absorbed(c, result, u, prepared, 0)
  {
    hide Prepare, UnitOutcome;
  }

  function ReportOf(c: Config, u: nat, prepared: seq<PreparedMember>, i: nat): Outcome
    requires u < Units(c) && i < |prepared|
  {
    var unit := c.program.units[u];
    ResultOutcome(UnitResult(c.program.host.exec, unit.tool, unit.batch, prepared, prepared[i]))
  }

  lemma ReportIsOutcome(c: Config, result: Assignment, u: nat, prepared: seq<PreparedMember>, k: nat)
    requires ProgramOk(c.program) && Absorbed(c, result, u, prepared, k) && k < |prepared|
    ensures MayRecord(c, result, prepared[k].node, ReportOf(c, u, prepared, k))
    ensures c.program.unitOf[prepared[k].node] == u
    ensures MembersKnown(c.program, u) && prepared[k].node in c.program.units[u].members
    ensures UnitOutcome(c.program, u, prepared[k].node, result) == ReportOf(c, u, prepared, k)
    ensures Prepare(c.program, prepared[k].node, result) == Ready(prepared[k])
    ensures !Stopped(ReportOf(c, u, prepared, k))
  {
    var members := c.program.units[u].members;
    MembersAreNodes(c.program, u);
    PreparedAreMembers(c.program, members, result);
    hide Prepare, ProgramOk;
    assert FromMember(c.program, members, result, prepared[k]);
  }

  /** Nothing about a unit changes when only its own outcomes are added. */
  lemma SameOutcomes(p: Program, u: nat, a: Assignment, b: Assignment)
    requires ProgramOk(p) && u < |p.units| && UnitReady(p, u, a) && Extends(a, b)
    ensures UnitReady(p, u, b) && MembersKnown(p, u)
    ensures PreparedMembers(p, p.units[u].members, b) == PreparedMembers(p, p.units[u].members, a)
    ensures forall m | m in p.units[u].members ::
      Prepare(p, m, b) == Prepare(p, m, a) && UnitOutcome(p, u, m, b) == UnitOutcome(p, u, m, a)
  {
    hide ProgramOk, Prepare, UnitOutcome, UnitReady, SameForUnit, Extends;
    MembersAreNodes(p, u);
    ExtendedSameForUnit(p, u, a, b);
    PreparedStable(p, u, p.units[u].members, a, b);
    forall m | m in p.units[u].members
      ensures Prepare(p, m, b) == Prepare(p, m, a) && UnitOutcome(p, u, m, b) == UnitOutcome(p, u, m, a)
    {
      PrepareStable(p, u, m, a, b);
      OutcomeStable(p, u, m, a, b);
    }
  }

  lemma ReportAbsorbed(c: Config, result: Assignment, u: nat, prepared: seq<PreparedMember>, k: nat)
    requires ProgramOk(c.program) && Absorbed(c, result, u, prepared, k) && k < |prepared|
      && UnitReady(c.program, u, result)
    ensures Absorbed(c, result[prepared[k].node := ReportOf(c, u, prepared, k)], u, prepared, k + 1)
    ensures UnitReady(c.program, u, result[prepared[k].node := ReportOf(c, u, prepared, k)])
  {
    hide Prepare, UnitOutcome, ReportOf, ProgramOk, UnitReady, Extends, MembersKnown;
    var n := prepared[k].node;
    MembersAreNodes(c.program, u);
    ReportIsOutcome(c, result, u, prepared, k);
    RecordExtends(result, n, ReportOf(c, u, prepared, k));
    SameOutcomes(c.program, u, result, result[n := ReportOf(c, u, prepared, k)]);
  }

  lemma AbsorbedAll(c: Config, result: Assignment, u: nat, prepared: seq<PreparedMember>)
    requires ProgramOk(c.program) && Absorbed(c, result, u, prepared, |prepared|)
    ensures AllSettled(c, result, u)
  {
    var members := c.program.units[u].members;
    MembersAreNodes(c.program, u);
    PreparedAreMembers(c.program, members, result);
    hide Prepare, ProgramOk, UnitOutcome;
    forall n | n in members
      ensures n in result
    {
      if Prepare(c.program, n, result).Ready? {
        var i :| 0 <= i < |prepared| && prepared[i].node == n;
      }
    }
  }

  // ------------------------------------------------------------- the engine

  ghost function UpTo(n: nat): (s: set<nat>)
    ensures |s| == n && forall u :: u in s <==> 0 <= u < n
  {
    if n == 0 then {} else UpTo(n - 1) + {n - 1}
  }

  ghost function Waiting(c: Config, s: State): set<nat> {
    UpTo(Units(c)) - s.finished - Listed(s.blocked) - s.inFlight.Keys
  }

  datatype Status = Success | Failure | Cancellation

  class Engine {
    const config: Config

    var outputs: Outputs
    var dead: set<NodeId>
    var errors: map<NodeId, ToolError>
    var skipped: map<NodeId, SkipReason>
    const locks: LockTable
    var toolInFlight: map<ToolName, nat>
    var totalInFlight: nat
    var stop: Option<SkipReason>

    // The run's queues.
    var remaining: seq<nat>
    var ready: set<nat>
    var blocked: seq<nat>
    var inFlight: map<nat, seq<PreparedMember>>

    ghost var result: Assignment
    ghost var hand: set<nat>
    ghost var finished: set<nat>
    ghost var log: Log

    ghost function View(): State
      reads this
    {
      State(result, remaining, ready, blocked, inFlight, hand, finished)
    }

    ghost predicate Valid()
      reads this, locks
    {
      && locks.Valid()
      && Keeps(config, View(), locks.held, totalInFlight, toolInFlight, stop, log)
      && Mirrors(result, outputs, dead, errors, skipped)
    }

    predicate IsSettled(n: NodeId)
      reads this
    {
      n in outputs || n in errors || n in skipped
    }

    /** A fresh engine, with every unit that depends on nothing ready. */
    constructor (c: Config)
      requires ConfigOk(c)
      ensures config == c && Valid() && fresh(locks)
      ensures result == map[] && stop == None && log == [] && hand == {} && finished == {}
      ensures blocked == [] && inFlight == map[]
      ensures forall u: nat :: u in ready <==> u < Units(c) && u < |c.unitDeps| && c.unitDeps[u] == {}
    {
      config := c;
      outputs, dead, errors, skipped := map[], {}, map[], map[];
      locks := new LockTable();
      toolInFlight, totalInFlight, stop := map[], 0, None;
      blocked, inFlight := [], map[];
      result, hand, finished, log := map[], {}, {}, [];
      remaining, ready := [], {};
      new;
      hide Keeps, ConfigOk, Mirrors;
      DepsSized(c);
      CountDependencies();
      InitKeeps(c, remaining, ready);
      NothingMirrors();
    }

    /** Every unit's number of dependencies, and the units with none. */
    method CountDependencies()
      requires remaining == [] && ready == {}
      modifies this`remaining, this`ready
      ensures |remaining| == |config.unitDeps|
        && forall u | 0 <= u < |remaining| :: remaining[u] == |config.unitDeps[u]|
      ensures forall u: nat :: u in ready <==> u < |remaining| && remaining[u] == 0
    {
      while |remaining| < |config.unitDeps|
        invariant |remaining| <= |config.unitDeps|
        invariant forall u | 0 <= u < |remaining| :: remaining[u] == |config.unitDeps[u]|
        invariant forall u: nat :: u in ready <==> u < |remaining| && remaining[u] == 0
      {
        var u := |remaining|;
        var count := |config.unitDeps[u]|;
        remaining := remaining + [count];
        if count == 0 {
          ready := ready + {u};
        }
      }
    }

    // ----------------------------------------------------------- settlement

    method RecordFailure(n: NodeId, error: ToolError)
      requires Valid() && ProgramOk(config.program) && MayRecord(config, result, n, Failed(error))
        && config.program.unitOf[n] in hand
      modifies this`dead, this`errors, this`stop, this`result, this`log
      ensures Valid() && result == old(result)[n := Failed(error)]
      ensures stop == AfterRecord(config, Failed(error), old(stop)) && log == LogStop(old(log), old(stop), stop)
    {
      hide Keeps, ProgramOk, MayRecord, Inv, OutputsOf, DeadOf, ErrorsOf, SkipsOf;
      SameIfRecorded(config, result, n, Failed(error));
      MirrorsRecord(result, n, Failed(error));
      RecordKeeps(config, View(), locks.held, totalInFlight, toolInFlight, stop, log, n, Failed(error));
      dead := dead + {n};
      errors := errors[n := error];
      if stop.None? && config.failFast {
        stop := Some(NotRun);
        log := log + [Halted];
      }
      result := result[n := Failed(error)];
    }

    method CompleteSkip(n: NodeId, reason: SkipReason)
      requires Valid() && ProgramOk(config.program) && MayRecord(config, result, n, Skipped(reason))
        && config.program.unitOf[n] in hand
      requires Stopped(Skipped(reason)) ==> stop == Some(reason) || !Positive(config)
      modifies this`dead, this`skipped, this`result
      ensures Valid() && result == old(result)[n := Skipped(reason)]
    {
      hide Keeps, ProgramOk, MayRecord, Inv, OutputsOf, DeadOf, ErrorsOf, SkipsOf;
      SameIfRecorded(config, result, n, Skipped(reason));
      MirrorsRecord(result, n, Skipped(reason));
      RecordKeeps(config, View(), locks.held, totalInFlight, toolInFlight, stop, log, n, Skipped(reason));
      dead := dead + {n};
      skipped := skipped[n := reason];
      result := result[n := Skipped(reason)];
    }

    method RecordOutput(n: NodeId, value: Json)
      requires Valid() && ProgramOk(config.program) && MayRecord(config, result, n, Done(value))
        && config.program.unitOf[n] in hand
      modifies this`outputs, this`result
      ensures Valid() && result == old(result)[n := Done(value)]
    {
      hide Keeps, ProgramOk, MayRecord, Inv, OutputsOf, DeadOf, ErrorsOf, SkipsOf;
      SameIfRecorded(config, result, n, Done(value));
      MirrorsRecord(result, n, Done(value));
      RecordKeeps(config, View(), locks.held, totalInFlight, toolInFlight, stop, log, n, Done(value));
      outputs := outputs[n := value];
      result := result[n := Done(value)];
    }

    // -------------------------------------------------------------- queues

    /** Takes the ready unit with the highest key, ties to the lower index. */
    method Pop() returns (u: nat)
      requires ready != {} && forall v | v in ready :: v < |config.readyKeys|
      modifies this`ready
      ensures u in old(ready) && ready == old(ready) - {u} && Foremost(config, old(ready), u)
      ensures forall v | v in old(ready) && config.readyKeys[v] == config.readyKeys[u] :: u <= v
    {
      u :| u in ready;
      var rest := ready - {u};
      while rest != {}
        invariant u in ready && rest <= ready
        invariant forall v | v in ready && v !in rest ::
          config.readyKeys[v] < config.readyKeys[u] || (config.readyKeys[v] == config.readyKeys[u] && u <= v)
      {
        var v :| v in rest;
        rest := rest - {v};
        if config.readyKeys[v] > config.readyKeys[u] || (config.readyKeys[v] == config.readyKeys[u] && v < u) {
          u := v;
        }
      }
      ready := ready - {u};
    }

    /** Counts down the dependents of `u` and readies those that reach zero. */
    method CountDown(u: nat)
      requires u < |config.unitDependents| && |remaining| == |config.unitDeps|
      requires forall v | v in config.unitDependents[u] :: v < |remaining| && v !in ready
      requires forall v | 0 <= v < |remaining| :: v in config.unitDependents[u] <==> u in config.unitDeps[v]
      modifies this`remaining, this`ready
      ensures Unblocked(config, u, old(remaining), old(ready), remaining, ready)
    {
      ghost var remaining0, ready0 := remaining, ready;
      var todo := config.unitDependents[u];
      while todo != {}
        modifies this`remaining, this`ready
        invariant todo <= config.unitDependents[u]
        invariant |remaining| == |remaining0|
        invariant forall v | 0 <= v < |remaining| ::
          remaining[v] == if v in config.unitDependents[u] && v !in todo && remaining0[v] > 0 then remaining0[v] - 1
            else remaining0[v]
        invariant forall v: nat ::
          v in ready <==>
            v in ready0 || (v in config.unitDependents[u] && v !in todo && v < |remaining| && remaining[v] == 0)
      {
        var dependent :| dependent in todo;
        todo := todo - {dependent};
        if remaining[dependent] > 0 {
          remaining := remaining[dependent := remaining[dependent] - 1];
        }
        if remaining[dependent] == 0 {
          assert dependent !in ready;
          ready := ready + {dependent};
        }
      }
    }

    /** Takes a settled unit off the hand and frees its dependents. */
    method Unblock(u: nat)
      requires Valid() && hand == {u} && AllSettled(config, result, u) && u !in Listed(ActiveIn(log))
      modifies this`remaining, this`ready, this`hand, this`finished, this`log
      ensures Valid() && hand == {} && finished == old(finished) + {u} && log == old(log) + [Finished(u)]
      ensures Unblocked(config, u, old(remaining), old(ready), remaining, ready)
    {
      hide Keeps, Mirrors, AllSettled, Unblocked, Listed;
      DependentsKnown(config, View(), locks.held, totalInFlight, toolInFlight, stop, log, u);
      ghost var before := View();
      CountDown(u);
      ListedIn(ActiveIn(log), u);
      FinishKeeps(config, before, locks.held, totalInFlight, toolInFlight, stop, log, u, remaining, ready);
      hand := {};
      finished := finished + {u};
      log := log + [Finished(u)];
    }

    /** Puts blocked units back in the ready queue for another admission try. */
    method Requeue()
      requires Valid()
      modifies this`ready, this`blocked
      ensures Valid() && blocked == [] && ready == old(ready) + Listed(old(blocked))
    {
      hide Keeps, Mirrors;
      RequeueKeeps(config, View(), locks.held, totalInFlight, toolInFlight, stop, log);
      ghost var before := View();
      while blocked != []
        modifies this`ready, this`blocked
        invariant ready + Listed(blocked) == before.ready + Listed(before.blocked)
      {
        var u := blocked[0];
        assert Listed(blocked) == Listed(blocked[1..]) + {u} by {
          assert blocked == [u] + blocked[1..];
        }
        ready := ready + {u};
        blocked := blocked[1..];
      }
      assert Listed(blocked) == {};
      assert View() == before.(blocked := [], ready := before.ready + Listed(before.blocked));
    }

    /** Settles the members that have no outcome yet. */
    method SettleMembers(u: nat, fallback: SkipReason)
      requires Valid() && hand == {u} && ProgramOk(config.program) && u < Units(config)
      requires Stopped(Skipped(fallback)) && (stop == Some(fallback) || !Positive(config))
      modifies this`dead, this`skipped, this`result
      ensures Valid() && AllSettled(config, result, u) && Extends(old(result), result)
      ensures LeftOut(config, old(result), result, u, fallback)
    {
      hide Keeps, ProgramOk, MayRecord, DataDeps, Mirrors, Extends, Positive, UnitReady, LeftOut;
      HandIsReady(config, View(), locks.held, totalInFlight, toolInFlight, stop, log, u);
      var members := config.program.units[u].members;
      MembersAreNodes(config.program, u);
      ExtendsItself(result);
      LeftOutNone(config, result, u, fallback);
      var i := 0;
      while i < |members|
        modifies this`dead, this`skipped, this`result
        invariant i <= |members|
        invariant Valid() && Extends(old(result), result)
        invariant forall k | 0 <= k < i :: members[k] in result
        invariant LeftOut(config, old(result), result, u, fallback)
      {
        var n := members[i];
        ghost var before := result;
        SettledMirrors(result, outputs, dead, errors, skipped);
        assert IsSettled(n) <==> n in result.Keys;
        DeadIs(result, outputs, dead, errors, skipped);
        if !IsSettled(n) {
          var reason := if DataDeps(config.program.nodes[n]) * dead != {} then FailedDependency else fallback;
          StaysReady(config.program, u, old(result), result);
          SkipMayRecord(config, result, u, n, reason);
          LeftOutStep(config, old(result), result, u, n, reason, fallback);
          CompleteSkip(n, reason);
          Recorded(before, n, Skipped(reason));
        }
        ExtendsTwice(old(result), before, result);
        StillSettled(before, result, members, i);
        i := i + 1;
      }
    }

    /** Settles what is left of a unit without running it, preferring the precise
        reason, and frees its dependents. */
    method SettleUnit(u: nat, fallback: SkipReason)
      requires Valid() && hand == {u} && ProgramOk(config.program) && SettledInline(config, result, u)
        && u !in Listed(ActiveIn(log))
      requires Stopped(Skipped(fallback)) && (stop == Some(fallback) || !Positive(config))
      modifies this`dead, this`skipped, this`result, this`remaining, this`ready, this`hand, this`finished, this`log
      ensures Valid() && hand == {} && finished == old(finished) + {u} && log == old(log) + [Finished(u)]
      ensures Unblocked(config, u, old(remaining), old(ready), remaining, ready)
      ensures Extends(old(result), result) && LeftOut(config, old(result), result, u, fallback)
    {
      hide Keeps, ProgramOk, Unblocked, SettledInline, AllSettled, Mirrors, Extends, Positive, LeftOut;
      InlineIsUnit(config, result, u);
      SettleMembers(u, fallback);
      Unblock(u);
    }

    // ------------------------------------------------------------- gating

    /** Resolves one member's inputs and gates it: dead references, condition,
        blocked tool, then its inputs. */
    method Gate(n: NodeId) returns (prepared: Prepared)
      requires Valid() && n in config.program.nodes
      ensures prepared == Prepare(config.program, n, result)
    {
      hide Keeps;
      var p := config.program;
      var node := p.nodes[n];
      if DataDeps(node) * dead != {} {
        return Settled(Skipped(FailedDependency));
      }
      if node.condition.Some? {
        var verdict := EvaluateWhen(node.condition.value, outputs);
        if verdict.Err? {
          return Settled(Failed(verdict.error));
        }
        if !verdict.value {
          return Settled(Skipped(Condition));
        }
      }
      if node.tool in p.host.blocked {
        return Settled(Failed(Coded("blocked_tool")));
      }
      var member := PrepareOne(p.host, p.tools, node, outputs);
      prepared := if member.Ok? then Ready(member.value) else Settled(Failed(member.error));
    }

    /** Records what preparation settled a member as. */
    method SettleInline(u: nat, n: NodeId, outcome: Outcome)
      requires Valid() && hand == {u} && ProgramOk(config.program) && n in config.program.nodes
        && config.program.unitOf[n] == u
      requires MayRecord(config, result, n, outcome) && !Stopped(outcome) && !outcome.Done?
      modifies this`dead, this`errors, this`skipped, this`stop, this`result, this`log
      ensures Valid() && result == old(result)[n := outcome]
      ensures stop == AfterRecord(config, outcome, old(stop)) && log == LogStop(old(log), old(stop), stop)
    {
      hide Keeps, ProgramOk, MayRecord, Mirrors, Inv;
      if outcome.Failed? {
        RecordFailure(n, outcome.error);
      } else {
        CompleteSkip(n, outcome.reason);
      }
    }

    /** Gates one member of the unit in hand: settles it or adds it to `prepared`. */
    method GateMember(u: nat, ghost done: seq<NodeId>, prepared: seq<PreparedMember>, n: NodeId)
          returns (prepared': seq<PreparedMember>)
      requires Valid() && hand == {u} && ProgramOk(config.program) && UnitReady(config.program, u, result)
      requires u < Units(config) && n in config.program.units[u].members && Gated(config, result, u, done, prepared)
      requires stop.Some? ==> HaltedBecause(config, result, log, u)
      modifies this`dead, this`errors, this`skipped, this`stop, this`result, this`log
      ensures Valid() && UnitReady(config.program, u, result) && Extends(old(result), result)
      ensures Gated(config, result, u, done + [n], prepared')
      ensures log == LogStop(old(log), old(stop), stop) && (old(stop).Some? ==> stop == old(stop))
      ensures stop.Some? ==> HaltedBecause(config, result, log, u)
    {
      hide Keeps, ProgramOk, MayRecord, Mirrors, Gated, UnitReady, Extends, StartedIn, ActiveIn, HaltedBecause, Prepare,
        Stopped;
      MembersAreNodes(config.program, u);
      ExtendsItself(result);
      var gate := Gate(n);
      if gate.Settled? {
        GateStep(config, View(), locks.held, totalInFlight, toolInFlight, stop, log, u, done, prepared, n);
        SameIfRecorded(config, result, n, gate.outcome);
        StopCause(config, result, log, u, n, gate.outcome, stop);
        SettleInline(u, n, gate.outcome);
        prepared' := prepared;
      } else {
        GateReady(config, result, u, done, prepared, n);
        prepared' := prepared + [gate.member];
      }
    }

    /** Gates every member of the unit in hand, in order. */
    method GateMembers(u: nat) returns (prepared: seq<PreparedMember>)
      requires Valid() && hand == {u} && stop.None? && ProgramOk(config.program) && SettledInline(config, result, u)
      modifies this`dead, this`errors, this`skipped, this`stop, this`result, this`log
      ensures Valid() && Extends(old(result), result)
      ensures u < Units(config) && Gated(config, result, u, config.program.units[u].members, prepared)
      ensures UnitReady(config.program, u, old(result))
      ensures log == LogStop(old(log), None, stop)
      ensures stop.Some? ==> HaltedBecause(config, result, log, u)
    {
      hide Keeps, ProgramOk, Mirrors, SettledInline, Gated, UnitReady, Extends, StartedIn, ActiveIn, HaltedBecause;
      HandIsReady(config, View(), locks.held, totalInFlight, toolInFlight, stop, log, u);
      var ids := config.program.units[u].members;
      InlineIsGated(config, result, u);
      prepared := [];
      var i := 0;
      ExtendsItself(result);
      while i < |ids|
        modifies this`dead, this`errors, this`skipped, this`stop, this`result, this`log
        invariant i <= |ids|
        invariant Valid() && UnitReady(config.program, u, result) && Extends(old(result), result)
        invariant Gated(config, result, u, ids[..i], prepared)
        invariant log == LogStop(old(log), None, stop)
        invariant stop.Some? ==> HaltedBecause(config, result, log, u)
      {
        ghost var before := result;
        assert ids[..i] + [ids[i]] == ids[..i + 1];
        prepared := GateMember(u, ids[..i], prepared, ids[i]);
        ExtendsTwice(old(result), before, result);
        i := i + 1;
      }
      assert ids[..i] == ids;
    }

    /** Settles the members that fail or skip; `None` when no member survived to
        dispatch, and then the unit is finished. The engine stops exactly when it
        fails fast and a member fails; the survivors are returned even then. */
    method PrepareMembers(u: nat) returns (members: Option<seq<PreparedMember>>)
      requires Valid() && hand == {u} && stop.None? && ProgramOk(config.program) && SettledInline(config, result, u)
        && u !in Listed(ActiveIn(log))
      modifies this`dead, this`errors, this`skipped, this`stop, this`result, this`log, this`remaining, this`ready,
        this`hand, this`finished
      ensures Valid() && Extends(old(result), result)
      ensures StartedIn(log) == StartedIn(old(log)) && ActiveIn(log) == ActiveIn(old(log))
      ensures members.Some? ==> Dispatched(config, result, u, members.value) && SettledInline(config, result, u)
      ensures members.Some? ==>
        hand == {u} && finished == old(finished) && remaining == old(remaining) && ready == old(ready)
      ensures members.Some? <==> SomeReady(config, old(result), u)
      ensures stop.Some? <==> config.failFast && SomeFails(config, old(result), u)
      ensures log == LogStop(old(log), None, stop) + if members.Some? then [] else [Finished(u)]
      ensures members.Some? && stop.Some? ==> u < Units(config) && HaltedBy(config, log, u)
      ensures members.None? ==> hand == {} && finished == old(finished) + {u}
      ensures members.None? ==> Unblocked(config, u, old(remaining), old(ready), remaining, ready)
    {
      hide Keeps, ProgramOk, MayRecord, Mirrors, SettledInline, Gated, Unblocked, Dispatched, Extends, Listed,
        StartedIn, ActiveIn, AllSettled, HaltedBy, MemberFailed, SomeFails, SomeReady, Consistent;
      var prepared := GateMembers(u);
      ResultsConsistent(config, View(), locks.held, totalInFlight, toolInFlight, stop, log);
      GatedShows(config, old(result), result, u, prepared);
      LogStopKeeps(old(log), None, stop);
      if stop.None? {
        NoneFailed(config, View(), locks.held, totalInFlight, toolInFlight, log, u);
      }
      GatedIsDispatched(config, result, u, prepared);
      GatedIsInline(config, result, u, config.program.units[u].members, prepared);
      if prepared == [] {
        ghost var before := log;
        Unblock(u);
        AppendedFinished(log, u);
        assert log[..|log| - 1] == before;
        return None;
      }
      if stop.Some? {
        StopIsOwn(config, result, log, u, prepared);
      }
      members := Some(prepared);
    }

    // ---------------------------------------------------------- admission

    /** Admits a unit if the limits and the locks let it run now. */
    method TryAdmit(u: nat) returns (ok: bool)
      requires Valid() && hand == {u} && u < Units(config) && u !in StartedIn(log) && u !in finished
        && u !in Listed(ActiveIn(log))
      requires stop.Some? ==> HaltedBy(config, log, u)
      requires Foremost(config, ready, u) && Unstuck(config, View())
      modifies locks, this`toolInFlight, this`totalInFlight, this`log
      ensures Valid()
      ensures ok ==> log == old(log) + [Started(u)] && u in Listed(ActiveIn(log))
      ensures !ok ==> log == old(log) && (Positive(config) ==> inFlight != map[])
      ensures ok <==> WithinLimits(config, ActiveIn(old(log)), u) && MayOverlap(config, u, ActiveIn(old(log)))
    {
      hide Keeps, Mirrors, HaltedBy, Foremost, Unstuck, Positive, Listed, StartedIn, ActiveIn, Compatible,
        CompatibleWithAll, SelfConflicting;
      var unit := config.program.units[u];
      AdmissionTest(config, View(), locks.held, totalInFlight, toolInFlight, stop, log, u);
      hide WithinLimits, MayOverlap;
      Busy(config, View(), locks.held, totalInFlight, toolInFlight, stop, log, u);
      if config.globalLimit.Some? && totalInFlight >= config.globalLimit.value {
        return false;
      }
      if unit.tool in config.toolLimits && CountOf(toolInFlight, unit.tool) >= config.toolLimits[unit.tool] {
        return false;
      }
      ghost var held := locks.held;
      NoSelfConflict(config, View(), locks.held, totalInFlight, toolInFlight, stop, log, u);
      var acquired := locks.TryAcquire(unit.lock);
      if acquired != Granted {
        return false;
      }
      AdmitKeeps(config, View(), held, totalInFlight, toolInFlight, stop, log, u);
      Admitted(log, u);
      toolInFlight := toolInFlight[unit.tool := CountOf(toolInFlight, unit.tool) + 1];
      totalInFlight := totalInFlight + 1;
      log := log + [Started(u)];
      ok := true;
    }

    /** Gives back the permits of the unit in hand. */
    method Release(u: nat)
      requires Valid() && hand == {u} && u in Listed(ActiveIn(log)) && u !in inFlight && u < Units(config)
      modifies locks, this`toolInFlight, this`totalInFlight, this`log
      ensures Valid() && log == old(log) + [Ended(u)] && u !in Listed(ActiveIn(log))
    {
      hide Keeps, Mirrors, Listed, ActiveIn;
      var unit := config.program.units[u];
      ghost var held := locks.held;
      LockIsHeld(config, View(), locks.held, totalInFlight, toolInFlight, stop, log, u);
      locks.Release(unit.lock);
      ReleaseKeeps(config, View(), held, locks.held, totalInFlight, toolInFlight, stop, log, u);
      toolInFlight := toolInFlight[unit.tool := CountOf(toolInFlight, unit.tool) - 1];
      totalInFlight := totalInFlight - 1;
      log := log + [Ended(u)];
    }

    /** Records the results a dispatched unit reports. */
    method Absorb(u: nat, prepared: seq<PreparedMember>)
      requires Valid() && hand == {u} && ProgramOk(config.program) && Dispatched(config, result, u, prepared)
      modifies this`outputs, this`dead, this`errors, this`stop, this`result, this`log
      ensures Valid() && AllSettled(config, result, u) && Extends(old(result), result)
      ensures ActiveIn(log) == ActiveIn(old(log))
      ensures old(stop).Some? ==> stop == old(stop)
    {
      hide Keeps, ProgramOk, Mirrors, Dispatched, Absorbed, UnitReady, Extends, ActiveIn, UnitResult, AllSettled,
        MayRecord, LogStop, Prepare, UnitOutcome;
      HandIsReady(config, View(), locks.held, totalInFlight, toolInFlight, stop, log, u);
      DispatchedIsAbsorbed(config, result, u, prepared);
      ExtendsItself(result);
      var unit := config.program.units[u];
      var k := 0;
      while k < |prepared|
        modifies this`outputs, this`dead, this`errors, this`stop, this`result, this`log
        invariant k <= |prepared|
        invariant Valid() && Absorbed(config, result, u, prepared, k) && UnitReady(config.program, u, result)
        invariant Extends(old(result), result) && ActiveIn(log) == ActiveIn(old(log))
        invariant old(stop).Some? ==> stop == old(stop)
      {
        ghost var before := result;
        ReportIsOutcome(config, result, u, prepared, k);
        ReportAbsorbed(config, result, u, prepared, k);
        MayExtend(config, result, prepared[k].node, ReportOf(config, u, prepared, k));
        var reported := UnitResult(config.program.host.exec, unit.tool, unit.batch, prepared, prepared[k]);
        if reported.Ok? {
          RecordOutput(prepared[k].node, reported.value);
        } else {
          LogStopKeeps(log, stop, AfterRecord(config, Failed(reported.error), stop));
          RecordFailure(prepared[k].node, reported.error);
        }
        ExtendsTwice(old(result), before, result);
        k := k + 1;
      }
      AbsorbedAll(config, result, u, prepared);
    }

    // ---------------------------------------------------------- scheduling

    /** Starts a prepared unit, or blocks it until another one completes. */
    method Dispatch(u: nat, members: seq<PreparedMember>)
      requires Valid() && hand == {u} && ProgramOk(config.program) && Dispatched(config, result, u, members)
        && SettledInline(config, result, u)
      requires u < Units(config) && u !in StartedIn(log) && u !in Listed(ActiveIn(log))
      requires u !in finished && u !in Listed(blocked) && u !in inFlight
      requires stop.Some? ==> HaltedBy(config, log, u)
      requires Foremost(config, ready, u) && Unstuck(config, View())
      modifies locks, this`toolInFlight, this`totalInFlight, this`log, this`blocked, this`inFlight, this`hand
      ensures Valid() && hand == {} && Unstuck(config, View())
      ensures Waiting(config, View()) < old(Waiting(config, View()))
      ensures old(inFlight).Keys <= inFlight.Keys
      ensures log == old(log) + if Admits(config, old(log), u) then [Started(u)] else []
    {
      hide Keeps, ProgramOk, Mirrors, Dispatched, SettledInline, Foremost, Unstuck, StartedIn, ActiveIn, Listed,
        HaltedBy, Waiting;
      ghost var before := View();
      hide WithinLimits, MayOverlap;
      var admitted := TryAdmit(u);
      if !admitted {
        BlockKeeps(config, View(), locks.held, totalInFlight, toolInFlight, stop, log, u);
        blocked := blocked + [u];
        hand := {};
        WaitingBlocked(config, before, View(), u);
        return;
      }
      StartKeeps(config, View(), locks.held, totalInFlight, toolInFlight, stop, log, u, members);
      inFlight := inFlight[u := members];
      hand := {};
      WaitingStarted(config, before, View(), u);
    }

    /** Settles, finishes or dispatches the unit just popped. A stop settles it.
        Otherwise it is admitted exactly when a member passes its gates and limits
        and locks allow; in a fail-fast run a member that fails stops the engine,
        and that changes nothing for the unit itself. */
    method Handle(u: nat)
      requires Valid() && hand == {u} && ProgramOk(config.program) && SettledInline(config, result, u)
      requires u < Units(config) && u !in StartedIn(log) && u !in Listed(ActiveIn(log))
      requires u !in finished && u !in Listed(blocked) && u !in inFlight
      requires Foremost(config, ready, u) && Unstuck(config, View())
      modifies this, locks
      ensures Valid() && hand == {} && Unstuck(config, View())
      ensures Waiting(config, View()) < old(Waiting(config, View()))
      ensures old(finished) <= finished && old(inFlight).Keys <= inFlight.Keys && Extends(old(result), result)
      ensures old(stop).Some? ==> stop == old(stop)
      ensures Handled(config, old(log), old(result), old(stop), u, log)
    {
      hide Handled, SomeFails, SomeReady, Admits, Keeps, ProgramOk, Mirrors, Dispatched, SettledInline, Unblocked,
        Extends, Foremost, Unstuck, StartedIn, ActiveIn, Listed, HaltedBy, Waiting;
      ghost var before := View();
      WaitingOne(config, before, u);
      if stop.Some? {
        StopIsStop(config, View(), locks.held, totalInFlight, toolInFlight, stop, log);
        SettleUnit(u, stop.value);
        UnstuckFinished(config, before, View());
        HandledStopped(config, old(log), old(result), old(stop), u, log);
        return;
      }
      var members := PrepareMembers(u);
      UnstuckFinished(config, before, View());
      ghost var prepared := log;
      HandledPrepared(config, old(log), old(result), u, stop, members.Some?, log);
      if members.None? {
        return;
      }
      WaitingSame(config, before, View());
      Dispatch(u, members.value);
      HandledDispatched(config, old(log), old(result), u, prepared, log);
    }

    /** Takes the foremost ready unit as far as it goes now. */
    method ScheduleOne()
      requires Valid() && hand == {} && ready != {} && Unstuck(config, View())
      modifies this, locks
      ensures Valid() && hand == {} && Unstuck(config, View())
      ensures Waiting(config, View()) < old(Waiting(config, View()))
      ensures old(finished) <= finished && old(inFlight).Keys <= inFlight.Keys && Extends(old(result), result)
      ensures old(stop).Some? ==> stop == old(stop)
      ensures exists u :: u in old(ready) && Handled(config, old(log), old(result), old(stop), u, log)
    {
      hide Keeps, ProgramOk, Mirrors, Dispatched, SettledInline, Extends, Foremost, Unstuck, StartedIn, ActiveIn,
        Listed, HaltedBy, Waiting, Handled;
      ReadyKnown(config, View(), locks.held, totalInFlight, toolInFlight, stop, log);
      ghost var before := View();
      var u := Pop();
      PopKeeps(config, before, locks.held, totalInFlight, toolInFlight, stop, log, u);
      hand := {u};
      ForemostLeft(config, before.ready, u);
      UnstuckFinished(config, before, View());
      WaitingSame(config, before, View());
      Handle(u);
    }

    /** Goes through the ready units until none is left. */
    method Schedule()
      requires Valid() && hand == {} && Unstuck(config, View())
      modifies this, locks
      ensures Valid() && hand == {} && ready == {} && Unstuck(config, View())
      ensures old(finished) <= finished && old(inFlight).Keys <= inFlight.Keys && Extends(old(result), result)
      ensures old(stop).Some? ==> stop == old(stop)
    {
      hide Keeps, Mirrors, Extends, Unstuck, Waiting;
      ExtendsItself(result);
      while ready != {}
        invariant Valid() && hand == {} && Unstuck(config, View())
        invariant old(finished) <= finished && old(inFlight).Keys <= inFlight.Keys && Extends(old(result), result)
        invariant old(stop).Some? ==> stop == old(stop)
        decreases Waiting(config, View())
      {
        ghost var before := result;
        ScheduleOne();
        ExtendsTwice(old(result), before, result);
      }
    }

    /** A running unit completes: its permits, its results, its dependents. */
    method Join(u: nat)
      requires Valid() && hand == {} && u in inFlight
      modifies this, locks
      ensures Valid() && hand == {} && blocked == [] && Extends(old(result), result)
      ensures u !in old(finished) && u < Units(config) && finished == old(finished) + {u}
      ensures old(stop).Some? ==> stop == old(stop)
    {
      hide Keeps, ProgramOk, Mirrors, Dispatched, Unblocked, Extends, ActiveIn, Listed, AllSettled;
      JoinKeeps(config, View(), locks.held, totalInFlight, toolInFlight, stop, log, u);
      var prepared := inFlight[u];
      inFlight := inFlight - {u};
      hand := {u};
      Release(u);
      Absorb(u, prepared);
      Unblock(u);
      Requeue();
    }

    /** Stops the engine for a cancellation. */
    method Cancel()
      requires Valid() && stop.None? && config.cancellable
      modifies this`stop, this`log
      ensures Valid() && stop == Some(Cancelled) && log == old(log) + [Halted]
    {
      hide Keeps, Mirrors;
      HaltKeeps(config, View(), locks.held, totalInFlight, toolInFlight, log);
      stop := Some(Cancelled);
      log := log + [Halted];
    }

    /** Settles a unit nothing could run, so that the loop does not spin. */
    method SettleLeftover(u: nat)
      requires Valid() && hand == {} && u in ready && !Positive(config)
      modifies this`dead, this`skipped, this`result, this`remaining, this`ready, this`hand, this`finished, this`log
      ensures Valid() && hand == {} && u !in old(finished) && u < Units(config) && finished == old(finished) + {u}
      ensures old(ready) - {u} <= ready && Extends(old(result), result)
    {
      hide Keeps, ProgramOk, Mirrors, SettledInline, Extends, StartedIn, ActiveIn, Listed;
      PopKeeps(config, View(), locks.held, totalInFlight, toolInFlight, stop, log, u);
      ready := ready - {u};
      hand := {u};
      SettleUnit(u, NotRun);
    }

    /** Settles every ready and blocked unit; under positive limits, or after a
        full pass, there is none. */
    method SettleLeftovers()
      requires Valid() && hand == {} && ready == {} && Unstuck(config, View()) && inFlight == map[]
      modifies this, locks
      ensures Valid() && hand == {} && blocked == [] && inFlight == map[]
      ensures Extends(old(result), result) && stop == old(stop)
      ensures old(finished) <= finished
      ensures old(blocked) != [] ==> UpTo(Units(config)) - finished < UpTo(Units(config)) - old(finished)
      ensures old(blocked) == [] ==> ready == {}
      ensures Positive(config) ==> result == old(result) && finished == old(finished)
    {
      hide Keeps, ProgramOk, Mirrors, Extends, Positive;
      ExtendsItself(result);
      if blocked != [] {
        LeftoversStuck(config, View());
      }
      Requeue();
      var todo := ready;
      assert old(blocked) != [] ==> old(blocked)[0] in todo;
      while todo != {}
        modifies this`dead, this`skipped, this`result, this`remaining, this`ready, this`hand, this`finished, this`log
        invariant Valid() && hand == {} && todo <= ready
        invariant todo != {} ==> !Positive(config)
        invariant Extends(old(result), result) && old(finished) <= finished
        invariant Positive(config) ==> result == old(result) && finished == old(finished)
        invariant todo == Listed(old(blocked)) || UpTo(Units(config)) - finished < UpTo(Units(config)) - old(finished)
        invariant old(blocked) == [] ==> ready == {}
      {
        var u :| u in todo;
        ghost var before, done := result, finished;
        SettleLeftover(u);
        assert u in UpTo(Units(config)) - done;
        ExtendsTwice(old(result), before, result);
        todo := todo - {u};
      }
    }

    /** Runs every unit to an outcome: the scheduling loop. Tasks complete in any
        order, and a cancellation may arrive whenever the loop waits. */
    method Run()
      requires Valid() && hand == {} && blocked == [] && inFlight == map[] && result == map[] && log == []
      modifies this, locks
      ensures Valid() && ProgramOk(config.program) && Complete(config.program, result)
      ensures ready == {} && blocked == [] && inFlight == map[] && hand == {} && totalInFlight == 0 && locks.held == []
      ensures outputs.Keys + errors.Keys + skipped.Keys == config.program.nodes.Keys
      ensures outputs.Keys !! errors.Keys && outputs.Keys !! skipped.Keys && errors.Keys !! skipped.Keys
      ensures RunLog(config, log, stop.Some?)
      ensures StopOk(config, result, stop)
      ensures !config.failFast && !config.cancellable ==> stop.None?
      ensures stop.None? && Positive(config) ==>
                forall rank :: DataRank(config.program, rank) ==> result == Evaluate(config.program, rank)
    {
      hide Keeps, ProgramOk, Mirrors, Extends, Unstuck, Positive, RunLog, StopOk;
      UnstuckEmpty(config, View());
      while true
        invariant Valid() && hand == {} && Unstuck(config, View())
        decreases UpTo(Units(config)) - finished, stop.None?, inFlight == map[]
      {
        Schedule();
        if inFlight == map[] {
          if ready == {} && blocked == [] {
            break;
          }
          Requeue();
          UnstuckEmpty(config, View());
          Schedule();
          if inFlight == map[] {
            SettleLeftovers();
            UnstuckEmpty(config, View());
            if ready == {} {
              break;
            }
          }
          continue;
        }
        var cancelled: bool := *;
        if config.cancellable && stop.None? && cancelled {
          Cancel();
          continue;
        }
        var u :| u in inFlight;
        Join(u);
        UnstuckEmpty(config, View());
      }
      RunOver(config, View(), locks.held, totalInFlight, toolInFlight, stop, log);
      SettledMirrors(result, outputs, dead, errors, skipped);
    }

    /** The safety net: accounts for nodes that never reached any queue. */
    method SettleUnreached()
      modifies this`dead, this`skipped
      ensures forall n | n in config.program.nodes :: old(IsSettled(n)) || n in skipped
      ensures (forall n | n in config.program.nodes :: old(IsSettled(n))) ==>
        skipped == old(skipped) && dead == old(dead)
    {
      hide DataDeps;
      var todo := config.program.nodes.Keys;
      while todo != {}
        modifies this`dead, this`skipped
        invariant todo <= config.program.nodes.Keys
        invariant forall n :: n in old(skipped) ==> n in skipped
        invariant forall n | n in config.program.nodes && n !in todo :: old(IsSettled(n)) || n in skipped
        invariant (forall n | n in config.program.nodes :: old(IsSettled(n))) ==>
          skipped == old(skipped) && dead == old(dead)
      {
        var n :| n in todo;
        todo := todo - {n};
        if !IsSettled(n) {
          var reason := if DataDeps(config.program.nodes[n]) * dead != {} then FailedDependency
                        else if stop.Some? then stop.value else NotRun;
          dead := dead + {n};
          skipped := skipped[n := reason];
        }
      }
    }

    /** Resolves the declared outputs; one that does not resolve is an error
        unless its node failed or was skipped. */
    method ResolveDeclared(declared: map<string, ValueRef>) returns (values: map<string, Json>)
      modifies this`errors
      ensures values == Resolved(declared, outputs)
      ensures errors == old(errors) + Unresolved(declared, outputs, dead)
    {
      hide ResolveRef, Unresolved, Resolved;
      values := map[];
      var names := declared.Keys;
      DeclaredBounds(declared, outputs, dead);
      while names != {}
        modifies this`errors
        invariant names <= declared.Keys
        invariant values == Resolved(declared - names, outputs)
        invariant errors == old(errors) + Unresolved(declared - names, outputs, dead)
      {
        var name :| name in names;
        var resolved := ResolveRef(declared[name], outputs);
        DeclaredOne(declared, names, outputs, dead, name);
        names := names - {name};
        if resolved.Ok? {
          values := values[name := resolved.value];
        } else if declared[name].node !in dead {
          errors := errors[OutputKey(name) := Coded("unresolved_output")];
        }
      }
    }

    /** Settles what never ran, resolves the declared outputs, and says how the
        run went. */
    method Finish(declared: map<string, ValueRef>) returns (status: Status, values: map<string, Json>)
      modifies this`dead, this`skipped, this`errors
      ensures forall n | n in config.program.nodes :: old(IsSettled(n)) || n in skipped
      ensures (forall n | n in config.program.nodes :: old(IsSettled(n))) ==>
        skipped == old(skipped) && dead == old(dead)
      ensures values == Resolved(declared, outputs)
      ensures errors == old(errors) + Unresolved(declared, outputs, dead)
      ensures status == if stop == Some(Cancelled) then Cancellation else if errors == map[] then Success else Failure
    {
      SettleUnreached();
      values := ResolveDeclared(declared);
      status := if stop == Some(Cancelled) then Cancellation else if errors == map[] then Success else Failure;
    }
  }

  lemma DeadIs(result: Assignment, outputs: Outputs, dead: set<NodeId>, errors: map<NodeId, ToolError>,
      skipped: map<NodeId, SkipReason>)
    requires Mirrors(result, outputs, dead, errors, skipped)
    ensures dead == DeadOf(result)
  {
  }

  lemma Recorded(result: Assignment, n: NodeId, outcome: Outcome)
    requires n !in result
    ensures Extends(result, result[n := outcome])
  {
  }

  /** Only members of `u` were settled, and each was skipped: after a failed
      dependency for it, otherwise for the reason given. */
  ghost predicate LeftOut(c: Config, before: Assignment, after: Assignment, u: nat, reason: SkipReason) {
    forall n | n in after && n !in before :: LeftOutFor(c, before, u, n, after[n], reason)
  }

  ghost predicate LeftOutFor(c: Config, before: Assignment, u: nat, n: NodeId, outcome: Outcome, reason: SkipReason) {
    && u < Units(c) && n in c.program.units[u].members && n in c.program.nodes
    && outcome == Skipped(if DataDeps(c.program.nodes[n]) * DeadOf(before) != {} then FailedDependency else reason)
  }

  lemma DeadBefore(p: Program, u: nat, n: NodeId, before: Assignment, after: Assignment)
    requires MembersKnown(p, u) && n in p.units[u].members && UnitReady(p, u, before) && Extends(before, after)
    ensures DataDeps(p.nodes[n]) * DeadOf(before) == DataDeps(p.nodes[n]) * DeadOf(after)
  {
    hide DataDeps;
    forall d | d in DataDeps(p.nodes[n])
      ensures d in DeadOf(before) <==> d in DeadOf(after)
    {
      assert DependsOn(p, u, d);
    }
  }

  lemma LeftOutNone(c: Config, result: Assignment, u: nat, reason: SkipReason)
    ensures LeftOut(c, result, result, u, reason)
  {
  }

  lemma LeftOutStep(c: Config, start: Assignment, before: Assignment, u: nat, n: NodeId, reason: SkipReason,
      fallback: SkipReason)
    requires ProgramOk(c.program) && u < Units(c) && n in c.program.units[u].members && n !in before
    requires UnitReady(c.program, u, start) && Extends(start, before) && LeftOut(c, start, before, u, fallback)
    requires n in c.program.nodes
      && reason == if DataDeps(c.program.nodes[n]) * DeadOf(before) != {} then FailedDependency else fallback
    ensures LeftOut(c, start, before[n := Skipped(reason)], u, fallback)
  {
    hide ProgramOk, UnitReady, Extends, DataDeps, DeadOf;
    MembersAreNodes(c.program, u);
    DeadBefore(c.program, u, n, start, before);
  }

  lemma StillSettled(before: Assignment, after: Assignment, members: seq<NodeId>, i: nat)
    requires i < |members| && members[i] in after && (before == after || Extends(before, after))
    requires forall k | 0 <= k < i :: members[k] in before
    ensures forall k | 0 <= k < i + 1 :: members[k] in after
    ensures Extends(before, after)
  {
  }

  lemma InlineIsUnit(c: Config, result: Assignment, u: nat)
    requires ProgramOk(c.program) && SettledInline(c, result, u)
    ensures u < Units(c)
  {
  }

  lemma SkipMayRecord(c: Config, result: Assignment, u: nat, n: NodeId, reason: SkipReason)
    requires ProgramOk(c.program) && u < Units(c) && n in c.program.units[u].members && n !in result
    requires n in c.program.nodes && c.program.unitOf[n] == u
    requires UnitReady(c.program, u, result)
    requires if DataDeps(c.program.nodes[n]) * DeadOf(result) != {} then reason == FailedDependency
      else Stopped(Skipped(reason))
    ensures MayRecord(c, result, n, Skipped(reason))
  {
    MembersAreNodes(c.program, u);
    if DataDeps(c.program.nodes[n]) * DeadOf(result) == {} {
      AliveIsUnharmed(c.program, u, n, result);
    }
  }

  lemma AliveIsUnharmed(p: Program, u: nat, n: NodeId, a: Assignment)
    requires MembersKnown(p, u) && n in p.units[u].members && UnitReady(p, u, a)
    requires DataDeps(p.nodes[n]) * DeadOf(a) == {}
    ensures Unharmed(p, n, a)
  {
    hide DataDeps;
    var dead := DataDeps(p.nodes[n]) * DeadOf(a);
    forall d | d in DataDeps(p.nodes[n])
      ensures d in a && a[d].Done?
    {
      assert DependsOn(p, u, d);
      assert !a[d].Done? ==> d in dead;
    }
  }

  lemma StaysReady(p: Program, u: nat, a: Assignment, b: Assignment)
    requires UnitReady(p, u, a) && Extends(a, b)
    ensures UnitReady(p, u, b)
  {
  }

  lemma DependentsKnown(c: Config, s: State, held: seq<LockRequest>, total: nat, toolInFlight: map<ToolName, nat>,
      stop: Option<SkipReason>, log: Log, u: nat)
    requires Keeps(c, s, held, total, toolInFlight, stop, log) && s.hand == {u}
    ensures u < Units(c) == |c.unitDependents| == |c.unitDeps| == |s.remaining|
    ensures forall v | v in c.unitDependents[u] :: v < Units(c) && v !in s.ready
    ensures forall v | 0 <= v < Units(c) :: v in c.unitDependents[u] <==> u in c.unitDeps[v]
  {
    hide Admission, HistoryOk, StopOk, SerialOk, ResultsOk, ProgramOk, CoversData;
    assert u in Placed(s) && u !in s.finished;
    forall v | v in c.unitDependents[u]
      ensures v < Units(c) && v !in s.ready
    {
      assert u in c.unitDeps[v];
      LeftZero(c, v, s.finished);
    }
  }

  lemma SameIfRecorded(c: Config, result: Assignment, n: NodeId, outcome: Outcome)
    requires ProgramOk(c.program) && MayRecord(c, result, n, outcome)
    ensures n in result ==> result[n] == outcome
  {
  }

  lemma NothingMirrors()
    ensures Mirrors(map[], map[], {}, map[], map[])
  {
  }

  lemma DepsSized(c: Config)
    requires ConfigOk(c)
    ensures |c.unitDeps| == Units(c)
  {
  }

  lemma InitKeeps(c: Config, remaining: seq<nat>, ready: set<nat>)
    requires ConfigOk(c) && |remaining| == Units(c) == |c.unitDeps|
    requires forall u | 0 <= u < |remaining| :: remaining[u] == |c.unitDeps[u]|
    requires forall u: nat :: u in ready <==> u < |remaining| && remaining[u] == 0
    ensures Keeps(c, State(map[], remaining, ready, [], map[], {}, {}), [], 0, map[], None, [])
  {
    hide ConfigOk, Counted, PlacesOk, ResultsOk, ProgramOk;
    ConfigProgram(c);
    InitCounted(c, remaining, ready);
    InitResults(c, remaining, ready);
  }

  lemma InitCounted(c: Config, remaining: seq<nat>, ready: set<nat>)
    requires |remaining| == Units(c) == |c.unitDeps|
    requires forall u | 0 <= u < |remaining| :: remaining[u] == |c.unitDeps[u]|
    requires forall u: nat :: u in ready <==> u < |remaining| && remaining[u] == 0
    ensures Counted(c, State(map[], remaining, ready, [], map[], {}, {}))
    ensures PlacesOk(c, State(map[], remaining, ready, [], map[], {}, {}))
  {
    assert Placed(State(map[], remaining, ready, [], map[], {}, {})) == ready;
    forall u | 0 <= u < Units(c)
      ensures remaining[u] == Left(c, u, {})
    {
      assert c.unitDeps[u] - {} == c.unitDeps[u];
    }
  }

  lemma InitResults(c: Config, remaining: seq<nat>, ready: set<nat>)
    requires ProgramOk(c.program) && forall u | u in ready :: u < Units(c)
    ensures ResultsOk(c, State(map[], remaining, ready, [], map[], {}, {}))
  {
    hide Prepare, Stopped, Explained;
  }

  lemma ConfigProgram(c: Config)
    requires ConfigOk(c)
    ensures ProgramOk(c.program)
  {
  }

  lemma ListedIn(s: seq<nat>, u: nat)
    ensures u in Listed(s) <==> u in s
  {
  }

  lemma AppendedFinished(log: Log, u: nat)
    requires log != [] && log[|log| - 1] == Finished(u)
    ensures StartedIn(log) == StartedIn(log[..|log| - 1]) && ActiveIn(log) == ActiveIn(log[..|log| - 1])
  {
  }

  lemma HandIsReady(c: Config, s: State, held: seq<LockRequest>, total: nat, toolInFlight: map<ToolName, nat>,
      stop: Option<SkipReason>, log: Log, u: nat)
    requires Keeps(c, s, held, total, toolInFlight, stop, log) && s.hand == {u}
    ensures u < Units(c) && ProgramOk(c.program) && UnitReady(c.program, u, s.result)
  {
    hide ConfigOk, Counted, PlacesOk, ResultsOk, Admission, HistoryOk, StopOk, SerialOk, UnitReady;
    HandIsPlaced(c, s);
    PlacedIsReady(c, s, u);
  }

  lemma InlineIsGated(c: Config, result: Assignment, u: nat)
    requires ProgramOk(c.program) && SettledInline(c, result, u)
    ensures Gated(c, result, u, [], [])
  {
    hide Prepare, ProgramOk, Stopped;
  }

  lemma GatedIsInline(c: Config, result: Assignment, u: nat, members: seq<NodeId>, prepared: seq<PreparedMember>)
    requires ProgramOk(c.program) && Gated(c, result, u, members, prepared)
    ensures SettledInline(c, result, u)
  {
  }

  lemma ExtendsItself(a: Assignment)
    ensures Extends(a, a)
  {
  }

  lemma ExtendsTwice(a: Assignment, b: Assignment, d: Assignment)
    requires Extends(a, b) && Extends(b, d)
    ensures Extends(a, d)
  {
  }

  /** One settled member, as a step of the whole invariant. */
  lemma GateStep(c: Config, s: State, held: seq<LockRequest>, total: nat, toolInFlight: map<ToolName, nat>,
      stop: Option<SkipReason>, log: Log, u: nat, members: seq<NodeId>, prepared: seq<PreparedMember>, n: NodeId)
    requires Keeps(c, s, held, total, toolInFlight, stop, log) && s.hand == {u}
    requires ProgramOk(c.program) && Gated(c, s.result, u, members, prepared) && UnitReady(c.program, u, s.result)
    requires u < Units(c) && n in c.program.units[u].members && n in c.program.nodes
      && Prepare(c.program, n, s.result).Settled?
    ensures MayRecord(c, s.result, n, Prepare(c.program, n, s.result).outcome)
    ensures !Stopped(Prepare(c.program, n, s.result).outcome) && !Prepare(c.program, n, s.result).outcome.Done?
    ensures Gated(c, s.result[n := Prepare(c.program, n, s.result).outcome], u, members + [n], prepared)
    ensures UnitReady(c.program, u, s.result[n := Prepare(c.program, n, s.result).outcome])
    ensures Extends(s.result, s.result[n := Prepare(c.program, n, s.result).outcome])
  {
    hide ConfigOk, Counted, PlacesOk, Admission, HistoryOk, StopOk, SerialOk, ProgramOk, UnitReady, Prepare, Stopped,
      Dispatched, NoneSettled, AllSettled, Explained;
    GatedIsInline(c, s.result, u, members, prepared);
    SettledMayRecord(c, s.result, u, n);
    GateNotDone(c.program, n, s.result);
    GateSettled(c, s.result, u, members, prepared, n);
    ExtendedSameForUnit(c.program, u, s.result, s.result[n := Prepare(c.program, n, s.result).outcome]);
  }

  lemma GateNotDone(p: Program, n: NodeId, a: Assignment)
    requires n in p.nodes && Prepare(p, n, a).Settled?
    ensures !Prepare(p, n, a).outcome.Done?
  {
  }

  ghost predicate MemberFailed(c: Config, result: Assignment, u: nat) {
    u < Units(c) && exists n :: n in c.program.units[u].members && n in result && result[n].Failed?
  }

  /** The run fails fast, a member of `u` failed, and the stop is the last thing
      that happened. */
  ghost predicate HaltedBecause(c: Config, result: Assignment, log: Log, u: nat) {
    && c.failFast && MemberFailed(c, result, u)
    && log != [] && log[|log| - 1] == Halted
  }

  lemma StopCause(c: Config, result: Assignment, log: Log, u: nat, n: NodeId, outcome: Outcome,
      stop: Option<SkipReason>)
    requires u < Units(c) && n in c.program.units[u].members && (n in result ==> result[n] == outcome)
    requires stop.Some? ==> HaltedBecause(c, result, log, u)
    ensures AfterRecord(c, outcome, stop).Some? ==>
      HaltedBecause(c, result[n := outcome], LogStop(log, stop, AfterRecord(c, outcome, stop)), u)
  {
    var after := result[n := outcome];
    assert n in after && after[n] == outcome;
    if stop.Some? {
      var m :| m in c.program.units[u].members && m in result && result[m].Failed?;
      assert m in after && after[m].Failed?;
    }
  }

  // What preparing a unit does, as far as it shows before it is done.

  ghost predicate SomeFails(c: Config, result: Assignment, u: nat) {
    MembersKnown(c.program, u) && exists n :: n in c.program.units[u].members && FailsGate(c, result, n)
  }

  ghost predicate FailsGate(c: Config, result: Assignment, n: NodeId) {
    n in c.program.nodes && Prepare(c.program, n, result).Settled? && Prepare(c.program, n, result).outcome.Failed?
  }

  ghost predicate SomeReady(c: Config, result: Assignment, u: nat) {
    MembersKnown(c.program, u) && exists n :: n in c.program.units[u].members && PassesGate(c, result, n)
  }

  ghost predicate PassesGate(c: Config, result: Assignment, n: NodeId) {
    n in c.program.nodes && Prepare(c.program, n, result).Ready?
  }

  lemma GatesStay(c: Config, before: Assignment, after: Assignment, u: nat)
    requires ProgramOk(c.program) && UnitReady(c.program, u, before) && Extends(before, after) && u < Units(c)
    ensures MembersKnown(c.program, u)
    ensures forall n | n in c.program.units[u].members :: Prepare(c.program, n, before) == Prepare(c.program, n, after)
  {
    hide ProgramOk, Prepare, UnitReady, Extends;
    MembersAreNodes(c.program, u);
    ExtendedSameForUnit(c.program, u, before, after);
    forall n | n in c.program.units[u].members
      ensures Prepare(c.program, n, before) == Prepare(c.program, n, after)
    {
      PrepareStable(c.program, u, n, before, after);
    }
  }

  lemma InlineOutcome(c: Config, result: Assignment, u: nat, n: NodeId)
    requires ProgramOk(c.program) && Consistent(c.program, result) && SettledInline(c, result, u)
    requires n in c.program.units[u].members && n in result
    ensures n in c.program.nodes && Prepare(c.program, n, result).Settled?
      && Prepare(c.program, n, result).outcome == result[n]
  {
    MemberIsNode(c.program, u, n);
    assert Explained(c.program, n, result);
  }

  /** Gating all members shows which of them fail and which pass. */
  lemma GatedShows(c: Config, before: Assignment, after: Assignment, u: nat, prepared: seq<PreparedMember>)
    requires ProgramOk(c.program) && Consistent(c.program, after) && UnitReady(c.program, u, before)
      && Extends(before, after)
    requires u < Units(c) && Gated(c, after, u, c.program.units[u].members, prepared)
    ensures SomeFails(c, before, u) <==> MemberFailed(c, after, u)
    ensures SomeReady(c, before, u) <==> prepared != []
  {
    hide ProgramOk, Prepare, UnitReady, Extends, Consistent;
    GatesStay(c, before, after, u);
    MembersAreNodes(c.program, u);
    PreparedAreMembers(c.program, c.program.units[u].members, after);
    if MemberFailed(c, after, u) {
      var n :| n in c.program.units[u].members && n in after && after[n].Failed?;
      InlineOutcome(c, after, u, n);
      assert FailsGate(c, before, n);
    }
    if SomeFails(c, before, u) {
      var n :| n in c.program.units[u].members && FailsGate(c, before, n);
      InlineOutcome(c, after, u, n);
    }
    if prepared != [] {
      assert FromMember(c.program, c.program.units[u].members, after, prepared[0]);
      assert PassesGate(c, before, prepared[0].node);
    }
    if SomeReady(c, before, u) {
      var n :| n in c.program.units[u].members && PassesGate(c, before, n);
      assert InPrepared(prepared, n);
    }
  }

  /** Limits and locks let `u` run after `log`. */
  ghost predicate Admits(c: Config, log: Log, u: nat) {
    u < Units(c) && WithinLimits(c, ActiveIn(log), u) && MayOverlap(c, u, ActiveIn(log))
  }

  lemma AdmitsSame(c: Config, before: Log, after: Log, u: nat)
    requires ActiveIn(before) == ActiveIn(after)
    ensures Admits(c, before, u) <==> Admits(c, after, u)
  {
  }

  /** Whether handling `u` stops an engine that had not stopped. */
  ghost function StopOf(c: Config, result: Assignment, u: nat): Log {
    if c.failFast && SomeFails(c, result, u) then [Halted] else []
  }

  /** Whether handling `u` finishes, admits or blocks it. */
  ghost function FateOf(c: Config, log: Log, result: Assignment, u: nat): Log {
    if !SomeReady(c, result, u) then [Finished(u)] else if Admits(c, log, u) then [Started(u)] else []
  }

  /** What handling `u` adds to the log. */
  ghost predicate Handled(c: Config, before: Log, result: Assignment, stop: Option<SkipReason>, u: nat, after: Log) {
    after == before + if stop.Some? then [Finished(u)] else StopOf(c, result, u) + FateOf(c, before, result, u)
  }

  lemma HandledStopped(c: Config, before: Log, result: Assignment, stop: Option<SkipReason>, u: nat, after: Log)
    requires stop.Some? && after == before + [Finished(u)]
    ensures Handled(c, before, result, stop, u, after)
  {
  }

  lemma HandledPrepared(c: Config, before: Log, result: Assignment, u: nat, stop: Option<SkipReason>, some: bool,
      log: Log)
    requires stop.Some? <==> c.failFast && SomeFails(c, result, u)
    requires some <==> SomeReady(c, result, u)
    requires log == LogStop(before, None, stop) + if some then [] else [Finished(u)]
    ensures !some ==> Handled(c, before, result, None, u, log)
    ensures some ==> log == before + StopOf(c, result, u) && (Admits(c, log, u) <==> Admits(c, before, u))
  {
    hide SomeFails, SomeReady;
    LogStopKeeps(before, None, stop);
    if some {
      assert log == LogStop(before, None, stop);
      AdmitsSame(c, before, log, u);
    }
  }

  lemma HandledDispatched(c: Config, before: Log, result: Assignment, u: nat, prepared: Log, log: Log)
    requires SomeReady(c, result, u) && prepared == before + StopOf(c, result, u)
    requires Admits(c, prepared, u) <==> Admits(c, before, u)
    requires log == prepared + if Admits(c, prepared, u) then [Started(u)] else []
    ensures Handled(c, before, result, None, u, log)
  {
    hide SomeFails, SomeReady, Admits;
  }

  /** So a unit is admitted after the stop exactly when the run fails fast, one of
      its members fails its gates, another passes them, and it could have been
      admitted anyway. */
  lemma AdmittedAfterStop(c: Config, log: Log, result: Assignment, u: nat)
    ensures StopOf(c, result, u) + FateOf(c, log, result, u) == [Halted, Started(u)] <==>
            c.failFast && SomeFails(c, result, u) && SomeReady(c, result, u) && Admits(c, log, u)
  {
    hide SomeFails, SomeReady, Admits;
    var stop, fate := StopOf(c, result, u), FateOf(c, log, result, u);
    if stop + fate == [Halted, Started(u)] {
      assert |stop + fate| == 2 && |stop| <= 1 && |fate| <= 1;
      assert (stop + fate)[1] == fate[0] == Started(u);
    }
  }

  lemma NoneFailed(c: Config, s: State, held: seq<LockRequest>, total: nat, toolInFlight: map<ToolName, nat>, log: Log,
      u: nat)
    requires Keeps(c, s, held, total, toolInFlight, None, log)
    ensures c.failFast ==> !MemberFailed(c, s.result, u)
    ensures ProgramOk(c.program) && Consistent(c.program, s.result)
  {
    hide ProgramOk, Consistent, Prepare;
    ConfigProgram(c);
  }

  lemma ResultsConsistent(c: Config, s: State, held: seq<LockRequest>, total: nat, toolInFlight: map<ToolName, nat>,
      stop: Option<SkipReason>, log: Log)
    requires Keeps(c, s, held, total, toolInFlight, stop, log)
    ensures ProgramOk(c.program) && Consistent(c.program, s.result)
  {
    hide ProgramOk, Consistent, Prepare;
    ConfigProgram(c);
  }

  lemma StopIsOwn(c: Config, result: Assignment, log: Log, u: nat, prepared: seq<PreparedMember>)
    requires ProgramOk(c.program) && HaltedBecause(c, result, log, u) && Dispatched(c, result, u, prepared)
    ensures u < Units(c) && HaltedBy(c, log, u)
  {
    hide ProgramOk, Dispatched;
    var n :| n in c.program.units[u].members && n in result && result[n].Failed?;
    LostAndKept(c, result, u, prepared, n);
  }

  lemma MayExtend(c: Config, result: Assignment, n: NodeId, outcome: Outcome)
    requires ProgramOk(c.program) && MayRecord(c, result, n, outcome)
    ensures Extends(result, result[n := outcome])
  {
  }

  lemma Admitted(log: Log, u: nat)
    ensures u in Listed(ActiveIn(log + [Started(u)]))
  {
    Appended(log, Started(u));
    ListedAppend(ActiveIn(log), u);
  }

  /** A limit or lock that refuses a unit is held by a running one. */
  lemma Busy(c: Config, s: State, held: seq<LockRequest>, total: nat, toolInFlight: map<ToolName, nat>,
      stop: Option<SkipReason>, log: Log, u: nat)
    requires Keeps(c, s, held, total, toolInFlight, stop, log) && s.hand == {u} && u < Units(c)
      && u !in Listed(ActiveIn(log))
    ensures Positive(c) && c.globalLimit.Some? && total >= c.globalLimit.value ==> s.inFlight != map[]
    ensures (Positive(c) && c.program.units[u].tool in c.toolLimits
             && CountOf(toolInFlight, c.program.units[u].tool) >= c.toolLimits[c.program.units[u].tool]) ==>
      s.inFlight != map[]
    ensures !CompatibleWithAll(c.program.units[u].lock, held) ==> s.inFlight != map[]
  {
    hide Inv, StopOk, SerialOk, Legal, LocksOf;
    var active := ActiveIn(log);
    HeldIsActive(c, active, held, total, toolInFlight);
    hide Admission;
    ListedIn(active, u);
    if active != [] {
      assert active[0] in active;
      ListedIn(active, active[0]);
      assert active[0] in s.inFlight.Keys;
    }
  }

  /** The engine's tests of limits and locks are the log's. */
  lemma AdmissionTest(c: Config, s: State, held: seq<LockRequest>, total: nat, toolInFlight: map<ToolName, nat>,
      stop: Option<SkipReason>, log: Log, u: nat)
    requires Keeps(c, s, held, total, toolInFlight, stop, log) && u < Units(c)
    ensures WithinLimits(c, ActiveIn(log), u) <==>
      && (c.globalLimit.Some? ==> total < c.globalLimit.value)
      && (c.program.units[u].tool in c.toolLimits ==>
            CountOf(toolInFlight, c.program.units[u].tool) < c.toolLimits[c.program.units[u].tool])
    ensures MayOverlap(c, u, ActiveIn(log)) <==> CompatibleWithAll(c.program.units[u].lock, held)
  {
    hide Inv, HistoryOk, StopOk, SerialOk, LocksOf, ActiveIn, CountOf, ToolCount, Compatible;
    var active := ActiveIn(log);
    HeldComesFrom(c, active, held, total, toolInFlight);
    HeldIsActive(c, active, held, total, toolInFlight);
    hide Admission;
    if MayOverlap(c, u, active) {
      forall k | 0 <= k < |held|
        ensures Compatible(c.program.units[u].lock, held[k])
      {
        assert HeldBySome(c, active, held[k]);
        var i: nat :| HoldsFor(c, active, held[k], i);
        assert active[i] in active;
      }
    }
    if CompatibleWithAll(c.program.units[u].lock, held) {
      OverlapsHeld(c, active, held, u);
    }
  }

  ghost predicate HoldsFor(c: Config, active: seq<nat>, lock: LockRequest, i: nat) {
    i < |active| && active[i] < Units(c) && c.program.units[active[i]].lock == lock
  }

  ghost predicate HeldBySome(c: Config, active: seq<nat>, lock: LockRequest) {
    exists i: nat :: HoldsFor(c, active, lock, i)
  }

  lemma OverlapsHeld(c: Config, active: seq<nat>, held: seq<LockRequest>, u: nat)
    requires u < Units(c) && CompatibleWithAll(c.program.units[u].lock, held)
    requires forall i | 0 <= i < |active| :: active[i] < Units(c) && c.program.units[active[i]].lock in held
    ensures MayOverlap(c, u, active)
  {
    hide Compatible;
    forall v | v in active
      ensures v < Units(c) && Compatible(c.program.units[u].lock, c.program.units[v].lock)
    {
      var i :| 0 <= i < |active| && active[i] == v;
      var k :| 0 <= k < |held| && held[k] == c.program.units[v].lock;
    }
  }

  lemma HeldComesFrom(c: Config, active: seq<nat>, held: seq<LockRequest>, total: nat, toolInFlight: map<ToolName, nat>)
    requires Admission(c, active, held, total, toolInFlight)
    ensures forall k | 0 <= k < |held| :: HeldBySome(c, active, held[k])
  {
    var locks := LocksOf(c, active);
    forall k | 0 <= k < |held|
      ensures HeldBySome(c, active, held[k])
    {
      assert held[k] in multiset(held);
      assert held[k] in multiset(locks);
      var i :| 0 <= i < |locks| && locks[i] == held[k];
      assert HoldsFor(c, active, held[k], i);
    }
  }

  lemma NoSelfConflict(c: Config, s: State, held: seq<LockRequest>, total: nat, toolInFlight: map<ToolName, nat>,
      stop: Option<SkipReason>, log: Log, u: nat)
    requires Keeps(c, s, held, total, toolInFlight, stop, log) && u < Units(c)
    ensures !SelfConflicting(c.program.units[u].lock)
  {
    hide ProgramOk, CoversData;
  }

  lemma LockIsHeld(c: Config, s: State, held: seq<LockRequest>, total: nat, toolInFlight: map<ToolName, nat>,
      stop: Option<SkipReason>, log: Log, u: nat)
    requires Keeps(c, s, held, total, toolInFlight, stop, log) && u in Listed(ActiveIn(log)) && u < Units(c)
    ensures c.program.units[u].lock in held
  {
    hide Inv, StopOk, SerialOk, Legal, LocksOf;
    HeldIsActive(c, ActiveIn(log), held, total, toolInFlight);
    ListedIn(ActiveIn(log), u);
  }

  lemma ReadyKnown(c: Config, s: State, held: seq<LockRequest>, total: nat, toolInFlight: map<ToolName, nat>,
      stop: Option<SkipReason>, log: Log)
    requires Keeps(c, s, held, total, toolInFlight, stop, log)
    ensures forall v | v in s.ready :: v < |c.readyKeys|
  {
    hide ProgramOk, CoversData, Counted, Apart, ResultsOk, Admission, HistoryOk, StopOk, SerialOk;
    forall v | v in s.ready
      ensures v < |c.readyKeys|
    {
      assert v in Placed(s);
    }
  }

  lemma ForemostLeft(c: Config, ready: set<nat>, u: nat)
    requires Foremost(c, ready, u)
    ensures Foremost(c, ready - {u}, u)
  {
  }

  lemma StopIsStop(c: Config, s: State, held: seq<LockRequest>, total: nat, toolInFlight: map<ToolName, nat>,
      stop: Option<SkipReason>, log: Log)
    requires Keeps(c, s, held, total, toolInFlight, stop, log) && stop.Some?
    ensures Stopped(Skipped(stop.value))
  {
    hide Inv, Admission, HistoryOk, SerialOk;
  }

  lemma UnstuckFinished(c: Config, before: State, after: State)
    requires Unstuck(c, before) && after.blocked == before.blocked && after.inFlight == before.inFlight
    ensures Unstuck(c, after)
  {
  }

  /** A popped unit was waiting, and finishing it leaves fewer waiting. */
  lemma WaitingOne(c: Config, before: State, u: nat)
    requires u < Units(c) && u !in before.finished && u !in Listed(before.blocked) && u !in before.inFlight
    ensures forall after: State ::
      after.finished == before.finished + {u} && after.blocked == before.blocked && after.inFlight == before.inFlight
      ==> Waiting(c, after) < Waiting(c, before)
  {
    assert u in Waiting(c, before);
  }

  lemma WaitingSame(c: Config, before: State, after: State)
    requires after.finished == before.finished && after.blocked == before.blocked && after.inFlight == before.inFlight
    ensures Waiting(c, after) == Waiting(c, before)
  {
  }

  lemma WaitingBlocked(c: Config, before: State, after: State, u: nat)
    requires u < Units(c) && u !in before.finished && u !in Listed(before.blocked) && u !in before.inFlight
    requires after.finished == before.finished && after.blocked == before.blocked + [u]
      && after.inFlight == before.inFlight
    requires Positive(c) ==> after.inFlight != map[]
    ensures Waiting(c, after) < Waiting(c, before) && Unstuck(c, after)
  {
    ListedAppend(before.blocked, u);
    assert u in Waiting(c, before);
  }

  lemma WaitingStarted(c: Config, before: State, after: State, u: nat)
    requires u < Units(c) && u !in before.finished && u !in Listed(before.blocked) && u !in before.inFlight
    requires after.finished == before.finished && after.blocked == before.blocked && u in after.inFlight
      && after.inFlight.Keys == before.inFlight.Keys + {u}
    ensures Waiting(c, after) < Waiting(c, before) && Unstuck(c, after)
  {
    assert u in Waiting(c, before);
  }

  lemma ListedEmpty(s: seq<nat>)
    ensures Listed(s) == {} <==> s == []
  {
    assert s != [] ==> s[|s| - 1] in Listed(s);
  }

  lemma LeftoversStuck(c: Config, s: State)
    requires Unstuck(c, s) && s.inFlight == map[] && s.blocked != []
    ensures !Positive(c)
  {
  }

  lemma UnstuckEmpty(c: Config, s: State)
    ensures s.blocked == [] ==> Unstuck(c, s)
  {
  }

  /** The log of a whole run. */
  ghost predicate RunLog(c: Config, log: Log, stopped: bool) {
    && |c.unitDeps| == Units(c)
    && Legal(c, log)
    && ActiveIn(log) == []
    && FinishedIn(log) == UpTo(Units(c)) && EndedIn(log) <= FinishedIn(log)
    && (HaltedIn(log) <==> stopped)
    && SerialOk(c, log)
  }

  lemma RunOver(c: Config, s: State, held: seq<LockRequest>, total: nat, toolInFlight: map<ToolName, nat>,
      stop: Option<SkipReason>, log: Log)
    requires Keeps(c, s, held, total, toolInFlight, stop, log)
    requires s.ready == {} && s.blocked == [] && s.inFlight == map[] && s.hand == {}
    ensures ProgramOk(c.program) && Complete(c.program, s.result)
    ensures total == 0 && held == []
    ensures RunLog(c, log, stop.Some?)
    ensures StopOk(c, s.result, stop)
    ensures !c.failFast && !c.cancellable ==> stop.None?
    ensures stop.None? && Positive(c) ==>
      forall rank :: DataRank(c.program, rank) ==> s.result == Evaluate(c.program, rank)
  {
    hide ProgramOk, CoversData, Counted, Apart, ResultsOk, SerialOk, Positive, Consistent, Legal, LocksOf;
    InvIsWellFormed(c, s);
    RunEnds(c, s);
    assert Listed(ActiveIn(log)) == {};
    ListedEmpty(ActiveIn(log));
    HeldIsActive(c, ActiveIn(log), held, total, toolInFlight);
    FinishedAll(c, s);
    if stop.None? && Positive(c) {
      forall rank | DataRank(c.program, rank)
        ensures s.result == Evaluate(c.program, rank)
      {
        CompleteIsEvaluation(c.program, rank, s.result);
      }
    }
  }

  lemma FinishedAll(c: Config, s: State)
    requires Inv(c, s) && forall u | 0 <= u < Units(c) :: u in s.finished
    ensures s.finished == UpTo(Units(c))
  {
    hide ProgramOk, CoversData, Apart, ResultsOk;
  }

  function OutputKey(name: string): string {
    "outputs." + name
  }

  /** Declared outputs that do not resolve although their node lived. */
  ghost function Unresolved(declared: map<string, ValueRef>, outputs: Outputs, dead: set<NodeId>): map<string,
        ToolError> {
    map name | name in declared && ResolveRef(declared[name], outputs).Err? && declared[name].node !in dead ::
      OutputKey(name) := Coded("unresolved_output")
  }

  lemma DeclaredBounds(declared: map<string, ValueRef>, outputs: Outputs, dead: set<NodeId>)
    ensures Resolved(declared - declared.Keys, outputs) == map[]
      && Unresolved(declared - declared.Keys, outputs, dead) == map[]
    ensures declared - {} == declared
  {
  }

  lemma DeclaredOne(declared: map<string, ValueRef>, names: set<string>, outputs: Outputs, dead: set<NodeId>,
      name: string)
    requires name in names && names <= declared.Keys
    ensures Resolved(declared - (names - {name}), outputs) ==
      if ResolveRef(declared[name], outputs).Ok?
      then Resolved(declared - names, outputs)[name := ResolveRef(declared[name], outputs).value]
      else Resolved(declared - names, outputs)
    ensures Unresolved(declared - (names - {name}), outputs, dead) ==
      if ResolveRef(declared[name], outputs).Err? && declared[name].node !in dead
      then Unresolved(declared - names, outputs, dead)[OutputKey(name) := Coded("unresolved_output")]
      else Unresolved(declared - names, outputs, dead)
  {
    hide Resolved, Unresolved;
    assert declared - (names - {name}) == (declared - names)[name := declared[name]];
    OneResolved(declared - names, outputs, name, declared[name]);
    OneUnresolved(declared - names, outputs, dead, name, declared[name]);
  }

  lemma OneResolved(before: map<string, ValueRef>, outputs: Outputs, name: string, ref: ValueRef)
    requires name !in before
    ensures Resolved(before[name := ref], outputs) ==
      if ResolveRef(ref, outputs).Ok? then Resolved(before, outputs)[name := ResolveRef(ref, outputs).value]
        else Resolved(before, outputs)
  {
    hide ResolveRef;
  }

  lemma OneUnresolved(before: map<string, ValueRef>, outputs: Outputs, dead: set<NodeId>, name: string, ref: ValueRef)
    requires name !in before
    ensures Unresolved(before[name := ref], outputs, dead) ==
      if ResolveRef(ref, outputs).Err? && ref.node !in dead
      then Unresolved(before, outputs, dead)[OutputKey(name) := Coded("unresolved_output")]
      else Unresolved(before, outputs, dead)
  {
    hide ResolveRef, OutputKey;
  }
}
