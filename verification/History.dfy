/** What an engine did, as a log: which units were admitted, ended and finished,
    and in which order. `Legal` is what every run promises about its log. */
module History {
  import opened Wrappers
  import opened Plans
  import opened Locks
  import opened Scheduling

  /** `Started` is an admission, `Ended` a release, `Finished` the moment a
      unit's dependents are unblocked, `Halted` the engine's stop. */
  datatype Event = Started(u: nat) | Ended(u: nat) | Finished(u: nat) | Halted

  type Log = seq<Event>

  ghost function StartedIn(log: Log): set<nat> {
    if log == [] then {}
    else StartedIn(log[..|log| - 1]) + (if log[|log| - 1].Started? then {log[|log| - 1].u} else {})
  }

  ghost function FinishedIn(log: Log): set<nat> {
    if log == [] then {}
    else FinishedIn(log[..|log| - 1]) + (if log[|log| - 1].Finished? then {log[|log| - 1].u} else {})
  }

  ghost function EndedIn(log: Log): set<nat> {
    if log == [] then {}
    else EndedIn(log[..|log| - 1]) + (if log[|log| - 1].Ended? then {log[|log| - 1].u} else {})
  }

  ghost predicate HaltedIn(log: Log) {
    Halted in log
  }

  function Without(s: seq<nat>, u: nat): seq<nat> {
    if s == [] then []
    else if s[|s| - 1] == u then s[..|s| - 1]
    else Without(s[..|s| - 1], u) + [s[|s| - 1]]
  }

  /** Admitted and not yet ended, in admission order. */
  ghost function ActiveIn(log: Log): seq<nat> {
    if log == [] then [] else ActiveAfter(ActiveIn(log[..|log| - 1]), log[|log| - 1])
  }

  ghost function ActiveAfter(before: seq<nat>, event: Event): seq<nat> {
    if event.Started? then before + [event.u]
    else if event.Ended? then Without(before, event.u)
    else before
  }

  function ToolCount(c: Config, active: seq<nat>, tool: ToolName): nat {
    if active == [] then 0
    else
      var u := active[|active| - 1];
      ToolCount(c, active[..|active| - 1], tool) + if u < Units(c) && c.program.units[u].tool == tool then 1 else 0
  }

  ghost predicate WithinLimits(c: Config, active: seq<nat>, u: nat)
    requires u < Units(c)
  {
    var tool := c.program.units[u].tool;
    && (c.globalLimit.Some? ==> |active| < c.globalLimit.value)
    && (tool in c.toolLimits ==> ToolCount(c, active, tool) < c.toolLimits[tool])
  }

  ghost predicate MayOverlap(c: Config, u: nat, active: seq<nat>)
    requires u < Units(c)
  {
    forall v | v in active :: v < Units(c) && Compatible(c.program.units[u].lock, c.program.units[v].lock)
  }

  /** The stop of a fail-fast run was the last thing that happened, and `u` is a
      batch: a member that failed while the batch was prepared does not hold the
      others back. */
  ghost predicate HaltedBy(c: Config, log: Log, u: nat)
    requires u < Units(c)
  {
    log != [] && log[|log| - 1] == Halted && c.failFast && c.program.units[u].batch
  }

  ghost predicate LegalEvent(c: Config, log: Log, event: Event)
    requires |c.unitDeps| == Units(c)
  {
    match event
    case Started(u) =>
      && u < Units(c)
      && (HaltedIn(log) ==> HaltedBy(c, log, u))
      && u !in StartedIn(log) && u !in FinishedIn(log)
      && c.unitDeps[u] <= FinishedIn(log)
      && EndedIn(log) <= FinishedIn(log)
      && MayOverlap(c, u, ActiveIn(log))
      && WithinLimits(c, ActiveIn(log), u)
    case Ended(u) => u in ActiveIn(log) && EndedIn(log) <= FinishedIn(log)
    case Finished(u) =>
      && u < Units(c)
      && u !in FinishedIn(log) && u !in ActiveIn(log)
      && c.unitDeps[u] <= FinishedIn(log)
      && EndedIn(log) <= FinishedIn(log) + {u}
    case Halted => !HaltedIn(log)
  }

  /** Each unit is admitted at most once and finished once, both only after its
      dependencies finished; what is active together is pairwise compatible and
      within every limit; a unit that ended is finished before anything else is
      admitted or ends; and nothing is admitted after a stop, unless it is the
      batch whose own preparation caused it. */
  ghost predicate Legal(c: Config, log: Log)
    requires |c.unitDeps| == Units(c)
  {
    log == [] || (Legal(c, log[..|log| - 1]) && LegalEvent(c, log[..|log| - 1], log[|log| - 1]))
  }

  lemma LegalAppend(c: Config, log: Log, event: Event)
    requires |c.unitDeps| == Units(c) && Legal(c, log) && LegalEvent(c, log, event)
    ensures Legal(c, log + [event])
  {
    assert (log + [event])[..|log|] == log;
  }

  lemma Appended(log: Log, event: Event)
    ensures StartedIn(log + [event]) == StartedIn(log) + (if event.Started? then {event.u} else {})
    ensures FinishedIn(log + [event]) == FinishedIn(log) + (if event.Finished? then {event.u} else {})
    ensures EndedIn(log + [event]) == EndedIn(log) + (if event.Ended? then {event.u} else {})
    ensures HaltedIn(log + [event]) <==> HaltedIn(log) || event == Halted
    ensures ActiveIn(log + [event]) == ActiveAfter(ActiveIn(log), event)
  {
    assert (log + [event])[..|log|] == log;
  }

  // ----------------------------------------------------------------- active

  ghost predicate Distinct(s: seq<nat>) {
    forall i, j | 0 <= i < j < |s| :: s[i] != s[j]
  }

  ghost predicate Known(c: Config, active: seq<nat>) {
    forall i | 0 <= i < |active| :: active[i] < Units(c)
  }

  ghost function LocksOf(c: Config, active: seq<nat>): (locks: seq<LockRequest>)
    requires Known(c, active)
    ensures |locks| == |active|
    ensures forall i | 0 <= i < |active| :: locks[i] == c.program.units[active[i]].lock
  {
    seq(|active|, i requires 0 <= i < |active| => c.program.units[active[i]].lock)
  }

  lemma DistinctAppend(s: seq<nat>, u: nat)
    requires Distinct(s) && u !in Listed(s)
    ensures Distinct(s + [u])
  {
    assert forall i | 0 <= i < |s| :: s[i] in Listed(s);
  }

  lemma DistinctInit(s: seq<nat>)
    requires Distinct(s) && s != []
    ensures Distinct(s[..|s| - 1]) && s[|s| - 1] !in Listed(s[..|s| - 1])
    ensures Listed(s) == Listed(s[..|s| - 1]) + {s[|s| - 1]}
  {
    ListedAppend(s[..|s| - 1], s[|s| - 1]);
    assert s == s[..|s| - 1] + [s[|s| - 1]];
  }

  lemma {:induction false} WithoutKeeps(c: Config, s: seq<nat>, u: nat)
    requires Distinct(s) && u in Listed(s) && Known(c, s)
    ensures Distinct(Without(s, u)) && |Without(s, u)| == |s| - 1
    ensures Listed(Without(s, u)) == Listed(s) - {u}
    ensures Known(c, Without(s, u)) && u < Units(c)
  {
    hide Distinct;
    var init, last := s[..|s| - 1], s[|s| - 1];
    DistinctInit(s);
    hide Listed;
    if last != u {
      WithoutKeeps(c, init, u);
      DistinctAppend(Without(init, u), last);
      ListedAppend(Without(init, u), last);
    }
  }

  lemma {:induction false} WithoutOne(c: Config, s: seq<nat>, u: nat)
    requires Distinct(s) && u in s && Known(c, s)
    ensures Known(c, Without(s, u)) && u < Units(c)
    ensures multiset(LocksOf(c, Without(s, u))) == multiset(LocksOf(c, s)) - multiset{c.program.units[u].lock}
    ensures forall tool ::
      ToolCount(c, s, tool) == ToolCount(c, Without(s, u), tool) + if c.program.units[u].tool == tool then 1 else 0
  {
    hide Distinct, Known, LocksOf;
    var init, last := s[..|s| - 1], s[|s| - 1];
    assert s == init + [last];
    WithoutKeeps(c, s, u);
    KnownInit(c, s);
    LocksAppend(c, init, last);
    if last != u {
      assert u in init;
      DistinctInit(s);
      WithoutOne(c, init, u);
      WithoutKeeps(c, init, u);
      var rest := Without(init, u);
      assert (rest + [last])[..|rest|] == rest;
      LocksAppend(c, rest, last);
    }
  }

  lemma KnownInit(c: Config, s: seq<nat>)
    requires Known(c, s) && s != []
    ensures Known(c, s[..|s| - 1]) && s[|s| - 1] < Units(c)
  {
  }

  lemma LocksAppend(c: Config, s: seq<nat>, u: nat)
    requires Known(c, s) && u < Units(c)
    ensures Known(c, s + [u])
    ensures multiset(LocksOf(c, s + [u])) == multiset(LocksOf(c, s)) + multiset{c.program.units[u].lock}
  {
    assert LocksOf(c, s + [u]) == LocksOf(c, s) + [c.program.units[u].lock];
  }

  lemma ListedAppend(s: seq<nat>, u: nat)
    ensures Listed(s + [u]) == Listed(s) + {u}
  {
  }

  /** The lock table and the counters stand for the active units. */
  ghost predicate Admission(c: Config, active: seq<nat>, held: seq<LockRequest>, total: nat, toolInFlight: map<ToolName,
      nat>) {
    && Distinct(active) && Known(c, active)
    && multiset(held) == multiset(LocksOf(c, active))
    && total == |active|
    && forall tool :: CountOf(toolInFlight, tool) == ToolCount(c, active, tool)
  }

  function CountOf(toolInFlight: map<ToolName, nat>, tool: ToolName): nat {
    if tool in toolInFlight then toolInFlight[tool] else 0
  }

  lemma ToolsAppend(c: Config, active: seq<nat>, u: nat)
    requires u < Units(c)
    ensures forall tool ::
      ToolCount(c, active + [u], tool) == ToolCount(c, active, tool) + if c.program.units[u].tool == tool then 1 else 0
  {
    assert (active + [u])[..|active|] == active;
  }

  lemma AdmitOne(c: Config, active: seq<nat>, held: seq<LockRequest>, total: nat, toolInFlight: map<ToolName, nat>,
      u: nat)
    requires Admission(c, active, held, total, toolInFlight) && u < Units(c) && u !in active
    ensures Admission(c, active + [u], held + [c.program.units[u].lock], total + 1,
              toolInFlight[c.program.units[u].tool := CountOf(toolInFlight, c.program.units[u].tool) + 1])
  {
    hide Distinct, Known, LocksOf, ToolCount;
    LocksAppend(c, active, u);
    DistinctAppend(active, u);
    ToolsAppend(c, active, u);
    assert multiset(held + [c.program.units[u].lock]) == multiset(held) + multiset{c.program.units[u].lock};
  }

  lemma ReleaseOne(c: Config, active: seq<nat>, held: seq<LockRequest>, held': seq<LockRequest>, total: nat,
      toolInFlight: map<ToolName, nat>, u: nat)
    requires Admission(c, active, held, total, toolInFlight) && u in active
    requires multiset(held') == multiset(held) - multiset{c.program.units[u].lock}
    ensures total > 0 && CountOf(toolInFlight, c.program.units[u].tool) > 0
    ensures Admission(c, Without(active, u), held', total - 1,
              toolInFlight[c.program.units[u].tool := CountOf(toolInFlight, c.program.units[u].tool) - 1])
  {
    WithoutKeeps(c, active, u);
    WithoutOne(c, active, u);
  }

  lemma HeldIsActive(c: Config, active: seq<nat>, held: seq<LockRequest>, total: nat, toolInFlight: map<ToolName, nat>)
    requires Admission(c, active, held, total, toolInFlight)
    ensures forall i | 0 <= i < |active| :: active[i] < Units(c) && c.program.units[active[i]].lock in held
    ensures |held| == |active|
  {
    var locks := LocksOf(c, active);
    assert |held| == |multiset(held)| == |multiset(locks)| == |locks|;
    forall i | 0 <= i < |active|
      ensures c.program.units[active[i]].lock in held
    {
      assert locks[i] in multiset(locks);
      assert locks[i] in multiset(held);
    }
  }

  // ----------------------------------------------------------------- keeping

  /** How the log relates to the state it led to. */
  ghost predicate HistoryOk(c: Config, s: State, log: Log, stopped: bool) {
    && |c.unitDeps| == Units(c)
    && Legal(c, log)
    && FinishedIn(log) == s.finished
    && (HaltedIn(log) <==> stopped)
    && StartedIn(log) <= s.inFlight.Keys + s.finished + s.hand
    && s.inFlight.Keys <= Listed(ActiveIn(log)) <= s.inFlight.Keys + s.hand
    && EndsOk(s, log)
  }

  /** What ended is finished, or in hand to be. */
  ghost predicate EndsOk(s: State, log: Log) {
    && EndedIn(log) <= s.finished + s.hand
    && EndedIn(log) <= StartedIn(log)
    && Listed(ActiveIn(log)) <= StartedIn(log) && Listed(ActiveIn(log)) !! EndedIn(log)
  }

  lemma HaltHistory(c: Config, s: State, log: Log)
    requires HistoryOk(c, s, log, false)
    ensures HistoryOk(c, s, log + [Halted], true)
  {
    Appended(log, Halted);
    LegalAppend(c, log, Halted);
  }

  /** A placed unit has no unfinished dependency. */
  lemma PlacedDependencies(c: Config, s: State, u: nat)
    requires Counted(c, s) && PlacesOk(c, s) && u in Placed(s)
    ensures u < Units(c) && c.unitDeps[u] <= s.finished
  {
    assert s.remaining[u] == 0;
    LeftZero(c, u, s.finished);
  }

  lemma StartHistory(c: Config, s: State, log: Log, stopped: bool, u: nat)
    requires Counted(c, s) && PlacesOk(c, s) && HistoryOk(c, s, log, stopped)
    requires s.hand == {u} && u !in StartedIn(log) && u !in s.finished
    requires u < Units(c) && (stopped ==> HaltedBy(c, log, u))
    requires MayOverlap(c, u, ActiveIn(log)) && WithinLimits(c, ActiveIn(log), u)
    ensures HistoryOk(c, s, log + [Started(u)], stopped)
  {
    hide Left, MayOverlap, WithinLimits, Counted, PlacesOk, ActiveIn, FinishedIn, StartedIn, EndedIn, Legal, HaltedIn,
      HaltedBy, Placed;
    HandIsIn(s);
    PlacedDependencies(c, s, u);
    ListedAppend(ActiveIn(log), u);
    Appended(log, Started(u));
    LegalAppend(c, log, Started(u));
  }

  lemma HandIsIn(s: State)
    ensures s.hand <= Placed(s)
  {
  }

  lemma EndHistory(c: Config, s: State, log: Log, stopped: bool, u: nat)
    requires HistoryOk(c, s, log, stopped) && s.hand == {u} && u in ActiveIn(log) && u !in s.inFlight
    requires Distinct(ActiveIn(log)) && Known(c, ActiveIn(log))
    ensures HistoryOk(c, s, log + [Ended(u)], stopped)
    ensures u !in ActiveIn(log + [Ended(u)])
  {
    WithoutKeeps(c, ActiveIn(log), u);
    Appended(log, Ended(u));
    LegalAppend(c, log, Ended(u));
    assert u !in Listed(ActiveIn(log + [Ended(u)]));
  }

  lemma FinishHistory(c: Config, s: State, log: Log, stopped: bool, u: nat, remaining': seq<nat>, ready': set<nat>)
    requires Counted(c, s) && PlacesOk(c, s) && HistoryOk(c, s, log, stopped)
    requires s.hand == {u} && u !in ActiveIn(log)
    ensures HistoryOk(c, AfterFinish(s, u, remaining', ready'), log + [Finished(u)], stopped)
  {
    PlacedDependencies(c, s, u);
    Appended(log, Finished(u));
    LegalAppend(c, log, Finished(u));
  }

  // ------------------------------------------------------------------ serial

  /** One unit at a time, by position in an order that respects dependencies. */
  ghost predicate Serial(c: Config, position: seq<nat>) {
    && c.globalLimit == Some(1)
    && (forall tool | tool in c.toolLimits :: c.toolLimits[tool] > 0)
    && |position| == Units(c) == |c.unitDeps| == |c.readyKeys|
    && (forall u, v | 0 <= u < Units(c) && 0 <= v < Units(c) :: c.readyKeys[u] <= c.readyKeys[v]
         <==> position[v] <= position[u])
    && (forall u, v | 0 <= u < Units(c) && 0 <= v < Units(c) && position[u] == position[v] :: u == v)
    && (forall u, d {:trigger d in c.unitDeps[u]} | 0 <= u < Units(c) && d in c.unitDeps[u] :: d < Units(c)
         && position[d] < position[u])
  }

  ghost predicate EarlierFinished(position: seq<nat>, u: nat, finished: set<nat>) {
    u < |position| && forall v | 0 <= v < |position| && position[v] < position[u] :: v in finished
  }

  /** A unit is admitted only when everything before it in the order is finished. */
  ghost predicate InOrder(position: seq<nat>, log: Log) {
    forall i | 0 <= i < |log| && log[i].Started? :: EarlierFinished(position, log[i].u, FinishedIn(log[..i]))
  }

  lemma InOrderAppend(position: seq<nat>, log: Log, event: Event)
    requires InOrder(position, log)
    requires event.Started? ==> EarlierFinished(position, event.u, FinishedIn(log))
    ensures InOrder(position, log + [event])
  {
    var log' := log + [event];
    forall i | 0 <= i < |log'| && log'[i].Started?
      ensures EarlierFinished(position, log'[i].u, FinishedIn(log'[..i]))
    {
      assert log'[..i] == log[..i];
      if i == |log| {
        assert log[..i] == log;
      }
    }
  }

  lemma {:induction false} FinishedGrows(log: Log, i: nat)
    requires i <= |log|
    ensures FinishedIn(log[..i]) <= FinishedIn(log)
    decreases |log|
  {
    if i < |log| {
      FinishedGrows(log[..|log| - 1], i);
      assert log[..|log| - 1][..i] == log[..i];
    } else {
      assert log[..i] == log;
    }
  }

  lemma LegalPrefix(c: Config, log: Log, i: nat)
    requires |c.unitDeps| == Units(c) && Legal(c, log) && i <= |log|
    ensures Legal(c, log[..i])
    decreases |log|
  {
    if i < |log| {
      LegalPrefix(c, log[..|log| - 1], i);
      assert log[..|log| - 1][..i] == log[..i];
    } else {
      assert log[..i] == log;
    }
  }

  lemma LegalAt(c: Config, log: Log, i: nat)
    requires |c.unitDeps| == Units(c) && Legal(c, log) && i < |log|
    ensures LegalEvent(c, log[..i], log[i])
  {
    LegalPrefix(c, log, i + 1);
    assert log[..i + 1][..i] == log[..i];
  }

  /** Serial runs admit units in strictly increasing position. */
  lemma SerialIncreases(c: Config, position: seq<nat>, log: Log, i: nat, j: nat)
    requires Serial(c, position) && Legal(c, log) && InOrder(position, log)
    requires i < j < |log| && log[i].Started? && log[j].Started?
    ensures log[i].u < |position| && log[j].u < |position| && position[log[i].u] < position[log[j].u]
  {
    var u, v := log[i].u, log[j].u;
    assert EarlierFinished(position, u, FinishedIn(log[..i])) && EarlierFinished(position, v, FinishedIn(log[..j]));
    LegalAt(c, log, j);
    StartedAt(log[..j], i);
    FinishedGrows(log[..j], i);
    assert log[..j][..i] == log[..i];
  }

  lemma {:induction false} StartedAt(log: Log, i: nat)
    requires i < |log| && log[i].Started?
    ensures log[i].u in StartedIn(log)
  {
    if i < |log| - 1 {
      StartedAt(log[..|log| - 1], i);
    }
  }

  lemma DependenciesEarlier(c: Config, position: seq<nat>, v: nat)
    requires Serial(c, position) && v < Units(c)
    ensures |position| == Units(c) == |c.unitDeps|
    ensures forall d | d in c.unitDeps[v] :: d < |position| && position[d] < position[v]
  {
  }

  /** The first unfinished unit of the order waits for nothing. */
  lemma FirstUnfinished(c: Config, s: State, position: seq<nat>, v: nat)
    requires Serial(c, position) && Counted(c, s) && PlacesOk(c, s)
    requires v < Units(c) && EarlierFinished(position, v, s.finished)
    ensures v in Placed(s)
  {
    hide Serial, Left, Apart, Placed;
    DependenciesEarlier(c, position, v);
    assert c.unitDeps[v] <= s.finished;
    LeftZero(c, v, s.finished);
  }

  ghost function Earliest(position: seq<nat>, finished: set<nat>, u: nat): (v: nat)
    requires u < |position| && u !in finished
    ensures v < |position| && v !in finished && EarlierFinished(position, v, finished) && position[v] <= position[u]
    decreases position[u]
  {
    if w :| 0 <= w < |position| && position[w] < position[u] && w !in finished then Earliest(position, finished, w)
      else u
  }

  /** No ready unit has a higher priority. */
  ghost predicate Foremost(c: Config, ready: set<nat>, u: nat) {
    && u < |c.readyKeys|
    && forall v | v in ready :: v < |c.readyKeys| && c.readyKeys[v] <= c.readyKeys[u]
  }

  /** With nothing running or blocked, the foremost ready unit is the first unfinished one. */
  lemma SerialStart(c: Config, s: State, position: seq<nat>, u: nat)
    requires Serial(c, position) && Counted(c, s) && PlacesOk(c, s)
    requires s.hand == {u} && Foremost(c, s.ready, u) && s.inFlight == map[] && s.blocked == []
    ensures EarlierFinished(position, u, s.finished)
  {
    hide Left, Counted;
    assert u in Placed(s) && u !in s.finished;
    var v := Earliest(position, s.finished, u);
    FirstUnfinished(c, s, position, v);
    assert v in s.ready || v == u;
  }
}
