/** Runs that stop early, and runs through the cache: whatever they report for a
    node that ran, the node-by-node meaning reports too. */
module PartialRuns {
  import opened Refs
  import opened Plans
  import opened Calls
  import opened Semantics
  import opened Meanings
  import opened Engines
  import opened BatchRuns
  import opened Dispatching

  /** No batchable fan-out of `member` sends a call that fails. */
  ghost predicate ItemsSucceed(exec: Executor, tool: ToolName, member: PreparedMember) {
    member.items.Some? && member.batchable && ItemInputs(member.input, member.items.value).Ok? ==>
      CallsSucceed(exec, tool, ItemInputs(member.input, member.items.value).value)
  }

  ghost predicate FanOutsSucceed(p: Program, a: Assignment) {
    forall n | n in p.nodes && Prepare(p, n, a).Ready? ::
      ItemsSucceed(p.host.exec, p.nodes[n].tool, Prepare(p, n, a).member)
  }

  /** The member's unit sends no call that could fail another. */
  ghost predicate Undisturbed(p: Program, n: NodeId, a: Assignment, cached: bool, member: PreparedMember)
    requires ProgramOk(p) && n in p.nodes
  {
    var u := p.unitOf[n];
    && MembersKnown(p, u)
    && (p.units[u].batch ==> AllSucceed(p.host.exec, p.units[u].tool, PreparedMembers(p, p.units[u].members, a)))
    && (cached ==> ItemsSucceed(p.host.exec, p.units[u].tool, member))
  }

  /** The outcome is a stop, or follows from what the node refers to: settled by
      a gate, or its own result when nothing it was sent with fails. */
  ghost predicate Follows(p: Program, n: NodeId, a: Assignment, cached: bool)
    requires ProgramOk(p) && n in p.nodes && n in a
  {
    Stopped(a[n])
    || (UnitReady(p, p.unitOf[n], a)
        && match Prepare(p, n, a)
           case Settled(outcome) => a[n] == outcome
           case Ready(member) =>
             Undisturbed(p, n, a, cached, member) ==>
               a[n] == ResultOutcome(SingleResult(p.host.exec, p.nodes[n].tool, member)))
  }

  // ------------------------------------------------------------- one node

  ghost predicate AgreeWhenDone(p: Program, u: nat, ran: Assignment, full: Assignment) {
    forall d | DependsOn(p, u, d) && d in ran && ran[d].Done? :: d in full && full[d] == ran[d]
  }

  /** A member that passed its gates in the run passes them in the meaning, with
      the same inputs. */
  lemma PreparedAlike(p: Program, u: nat, ran: Assignment, full: Assignment, n: NodeId)
    requires ProgramOk(p) && u < |p.units| && n in p.units[u].members && n in p.nodes && UnitReady(p, u, ran)
    requires AgreeWhenDone(p, u, ran, full) && Prepare(p, n, ran).Ready?
    ensures Prepare(p, n, full) == Prepare(p, n, ran)
  {
    MembersAreNodes(p, u);
    ReadyNotDead(p, n, ran);
    hide ProgramOk, DataDeps;
    forall d | d in DataDeps(p.nodes[n])
      ensures d in ran && d in full && full[d] == ran[d]
    {
      assert DependsOn(p, u, d);
    }
    InputCollects(p, n);
    PrepareFootprint(p.host, p.tools, p.nodes[n], ran, full);
  }

  lemma InputCollects(p: Program, n: NodeId)
    requires ProgramOk(p) && n in p.nodes
    ensures CollectRefs(p.nodes[n].input).Ok?
  {
  }

  lemma ReadyNotDead(p: Program, n: NodeId, a: Assignment)
    requires n in p.nodes && Prepare(p, n, a).Ready?
    ensures forall d | d in DataDeps(p.nodes[n]) && d in a :: a[d].Done?
  {
    hide DataDeps, EvaluateWhen, PrepareOne;
    var dead := DataDeps(p.nodes[n]) * DeadOf(a);
    assert dead == {};
    assert forall d | d in DataDeps(p.nodes[n]) && d in a :: a[d].Done? || d in dead;
  }

  lemma BatchAllSucceeds(p: Program, u: nat, ran: Assignment, full: Assignment)
    requires ProgramOk(p) && u < |p.units| && p.units[u].batch && UnitReady(p, u, ran)
    requires AgreeWhenDone(p, u, ran, full) && BatchesSucceed(p, full)
    ensures MembersKnown(p, u) && AllSucceed(p.host.exec, p.units[u].tool, PreparedMembers(p, p.units[u].members, ran))
  {
    SentAre(p, u, ran);
    SentAre(p, u, full);
    hide ProgramOk, Prepare, PreparedMembers, UnitReady, AgreeWhenDone;
    var members := p.units[u].members;
    var sent, all := PreparedMembers(p, members, ran), PreparedMembers(p, members, full);
    forall i | 0 <= i < |sent|
      ensures p.host.exec.call(p.units[u].tool, sent[i].input).Ok?
    {
      assert FromMember(p, members, ran, sent[i]);
      PreparedAlike(p, u, ran, full, sent[i].node);
      var k :| 0 <= k < |all| && all[k].node == sent[i].node;
      assert FromMember(p, members, full, all[k]);
    }
  }

  /** When what it refers to agrees, so does the node. */
  lemma NodeAgrees(p: Program, ran: Assignment, full: Assignment, cached: bool, n: NodeId)
    requires ProgramOk(p) && SoloMeaning(p, full) && BatchesSucceed(p, full) && (cached ==> FanOutsSucceed(p, full))
    requires n in p.nodes && n in ran && Follows(p, n, ran, cached) && !Stopped(ran[n])
    requires AgreeWhenDone(p, p.unitOf[n], ran, full) && SameOn(DataDeps(p.nodes[n]), ran, full)
    ensures full[n] == ran[n]
  {
    UnitOfNode(p, n);
    InputCollects(p, n);
    var u := p.unitOf[n];
    MembersAreNodes(p, u);
    assert p.nodes[n].tool == p.units[u].tool by {
      assert UnitOk(p, p.units[u]);
    }
    hide ProgramOk, DataDeps, SingleResult, SoloOutcome, AgreeWhenDone, BatchesSucceed, UnitReady;
    PrepareFootprint(p.host, p.tools, p.nodes[n], ran, full);
    SoloOfPrepared(p, n, full);
    hide PrepareMember;
    if Prepare(p, n, ran).Ready? {
      if p.units[u].batch {
        BatchAllSucceeds(p, u, ran, full);
      }
      assert Undisturbed(p, n, ran, cached, Prepare(p, n, ran).member);
    }
  }

  // ------------------------------------------------------------- whole runs

  /** A run in which every outcome follows, complete or cut short. */
  ghost predicate Run(p: Program, a: Assignment, cached: bool)
    requires ProgramOk(p)
  {
    a.Keys == p.nodes.Keys && forall n | n in a :: Follows(p, n, a, cached)
  }

  lemma ReachedNotDead(p: Program, n: NodeId, a: Assignment, cached: bool)
    requires ProgramOk(p) && n in p.nodes && n in a && Follows(p, n, a, cached) && Reached(a[n])
    ensures forall d | d in DataDeps(p.nodes[n]) && d in a :: a[d].Done?
  {
    hide ProgramOk, DataDeps, EvaluateWhen, PrepareOne, UnitReady, Undisturbed;
    forall d | d in DataDeps(p.nodes[n]) && d in a
      ensures a[d].Done?
    {
      assert !a[d].Done? ==> d in DataDeps(p.nodes[n]) * DeadOf(a);
    }
  }

  lemma RefersWithin(p: Program, rank: seq<nat>, n: NodeId)
    requires ProgramOk(p) && DataRank(p, rank) && n in p.nodes
    ensures p.unitOf.Keys == p.nodes.Keys && forall m | m in p.nodes :: p.unitOf[m] < |rank|
    ensures forall d | d in DataDeps(p.nodes[n]) :: DependsOn(p, p.unitOf[n], d) && d in p.nodes
    ensures forall d | DependsOn(p, p.unitOf[n], d) :: d in p.nodes && rank[p.unitOf[d]] < rank[p.unitOf[n]]
  {
    UnitOfNode(p, n);
    MembersAreNodes(p, p.unitOf[n]);
    hide DataDeps;
  }

  lemma ReachedKinds(a: Assignment)
    ensures forall n | n in a && a[n].Done? :: Reached(a[n])
    ensures forall n | n in a && Reached(a[n]) :: !Stopped(a[n])
  {
  }

  lemma {:induction false} ReachedAgrees(p: Program, rank: seq<nat>, ran: Assignment, full: Assignment, cached: bool,
      n: NodeId)
    requires ProgramOk(p) && DataRank(p, rank) && SoloMeaning(p, full) && BatchesSucceed(p, full)
    requires Run(p, ran, cached) && (cached ==> FanOutsSucceed(p, full)) && n in p.nodes && Reached(ran[n])
    ensures full[n] == ran[n]
    decreases rank[p.unitOf[n]]
  {
    hide ProgramOk, DataDeps, DependsOn, Follows, SoloOutcome, BatchesSucceed, FanOutsSucceed, DataRank, Reached,
      Stopped;
    RefersWithin(p, rank, n);
    assert Follows(p, n, ran, cached);
    ReachedKinds(ran);
    forall d | DependsOn(p, p.unitOf[n], d) && d in ran && ran[d].Done?
      ensures d in full && full[d] == ran[d]
    {
      ReachedAgrees(p, rank, ran, full, cached, d);
    }
    ReachedNotDead(p, n, ran, cached);
    NodeAgrees(p, ran, full, cached, n);
  }

  lemma {:induction false} UnstoppedAgrees(p: Program, rank: seq<nat>, ran: Assignment, full: Assignment, cached: bool,
      n: NodeId)
    requires ProgramOk(p) && DataRank(p, rank) && SoloMeaning(p, full) && BatchesSucceed(p, full)
    requires Run(p, ran, cached) && (cached ==> FanOutsSucceed(p, full)) && NothingStopped(ran) && n in p.nodes
    ensures full[n] == ran[n]
    decreases rank[p.unitOf[n]]
  {
    RefersWithin(p, rank, n);
    hide ProgramOk, DataDeps, DependsOn, Follows, SoloOutcome, BatchesSucceed, FanOutsSucceed, DataRank, Stopped;
    forall d | DependsOn(p, p.unitOf[n], d)
      ensures d in ran && d in full && full[d] == ran[d]
    {
      UnstoppedAgrees(p, rank, ran, full, cached, d);
    }
    NodeAgrees(p, ran, full, cached, n);
  }

  lemma RunAgrees(p: Program, rank: seq<nat>, ran: Assignment, full: Assignment, cached: bool)
    requires ProgramOk(p) && DataRank(p, rank) && SoloMeaning(p, full) && BatchesSucceed(p, full)
    requires Run(p, ran, cached) && (cached ==> FanOutsSucceed(p, full))
    ensures forall n | n in p.nodes && Reached(ran[n]) :: full[n] == ran[n]
    ensures NothingStopped(ran) ==> ran == full
  {
    hide ProgramOk, DataRank, Follows, SoloOutcome, BatchesSucceed, FanOutsSucceed, Reached, NothingStopped;
    forall n | n in p.nodes && Reached(ran[n])
      ensures full[n] == ran[n]
    {
      ReachedAgrees(p, rank, ran, full, cached, n);
    }
    if NothingStopped(ran) {
      forall n | n in p.nodes
        ensures full[n] == ran[n]
      {
        UnstoppedAgrees(p, rank, ran, full, cached, n);
      }
    }
  }

  // --------------------------------------------------------- without a cache

  lemma ExplainedFollows(p: Program, n: NodeId, a: Assignment)
    requires ProgramOk(p) && n in p.nodes && n in a && Explained(p, n, a) && (Honest(p.host.exec) || Unbatched(p))
    ensures Follows(p, n, a, false)
  {
    UnitOfNode(p, n);
    var u := p.unitOf[n];
    SentAre(p, u, a);
    SentDistinct(p, u, a);
    assert p.nodes[n].tool == p.units[u].tool by {
      assert UnitOk(p, p.units[u]);
    }
    hide ProgramOk, UnitReady, Honest, PreparedMembers, SingleResult, BatchResult;
    if p.units[u].batch && Prepare(p, n, a).Ready? {
      var member := Prepare(p, n, a).member;
      SentAlone(p, u, n, a, member);
      hide Prepare;
      var sent := PreparedMembers(p, p.units[u].members, a);
      var i :| 0 <= i < |sent| && sent[i].node == n;
      assert FromMember(p, p.units[u].members, a, sent[i]);
      if AllSucceed(p.host.exec, p.units[u].tool, sent) {
        BatchIsPointwise(p.host.exec, p.units[u].tool, sent, i);
      }
    }
  }

  /** A run that fails fast or is cancelled, batches and all, reports nothing the
      full run would not: every output, error and false condition in it is the
      full run's, as long as the full run's batches send no call that fails. */
  lemma PartialRunsAreSound(p: Program, rank: seq<nat>, partial: Assignment, full: Assignment)
    requires ProgramOk(p) && DataRank(p, rank) && (Honest(p.host.exec) || Unbatched(p))
    requires Complete(p, partial) && SoloMeaning(p, full) && BatchesSucceed(p, full)
    ensures forall n | n in p.nodes && Reached(partial[n]) :: full[n] == partial[n]
  {
    hide ProgramOk, DataRank, Honest, Unbatched, BatchesSucceed, SoloMeaning, Explained, Follows, Reached;
    forall n | n in partial
      ensures Follows(p, n, partial, false)
    {
      ExplainedFollows(p, n, partial);
    }
    RunAgrees(p, rank, partial, full, false);
  }

  // ------------------------------------------------------ through the cache

  /** What each unit's lookups found. */
  type Lookups = nat -> Hits

  /** The outcome of member `n` of unit `u`, dispatched through a truthful cache
      in which `hits` were found. */
  ghost function CachedOutcome(p: Program, u: nat, n: NodeId, a: Assignment, hits: Hits): Outcome
    requires MembersKnown(p, u) && n in p.units[u].members
  {
    match Prepare(p, n, a)
    case Settled(outcome) => outcome
    case Ready(member) =>
      var unit := p.units[u];
      ResultOutcome(CachedResult(p.host.exec, unit.tool, unit.batch, PreparedMembers(p, unit.members, a), hits, member))
  }

  ghost predicate CacheExplained(p: Program, n: NodeId, a: Assignment, found: Lookups)
    requires ProgramOk(p) && n in p.nodes && n in a
  {
    Stopped(a[n])
    || (UnitReady(p, p.unitOf[n], a) && a[n] == CachedOutcomeAt(p, n, a, found))
  }

  ghost function CachedOutcomeAt(p: Program, n: NodeId, a: Assignment, found: Lookups): Outcome
    requires ProgramOk(p) && n in p.nodes
  {
    UnitOfNode(p, n);
    MembersAreNodes(p, p.unitOf[n]);
    CachedOutcome(p, p.unitOf[n], n, a, found(p.unitOf[n]))
  }

  ghost predicate CacheComplete(p: Program, a: Assignment, found: Lookups)
    requires ProgramOk(p)
  {
    a.Keys == p.nodes.Keys && forall n | n in a :: CacheExplained(p, n, a, found)
  }

  /** What was found are outputs of calls that succeed. */
  ghost predicate FoundOk(p: Program, a: Assignment, found: Lookups) {
    forall u | 0 <= u < |p.units| ::
      MembersKnown(p, u)
      && HitsOk(p.host.exec, p.units[u].tool, p.units[u].batch, PreparedMembers(p, p.units[u].members, a), found(u))
  }

  /** A member that was sent, among those that were. */
  lemma SentAt(p: Program, n: NodeId, a: Assignment) returns (i: nat)
    requires ProgramOk(p) && n in p.nodes && Prepare(p, n, a).Ready?
    ensures MembersKnown(p, p.unitOf[n]) && n in p.units[p.unitOf[n]].members
    ensures i < |PreparedMembers(p, p.units[p.unitOf[n]].members, a)|
    ensures PreparedMembers(p, p.units[p.unitOf[n]].members, a)[i] == Prepare(p, n, a).member
  {
    UnitOfNode(p, n);
    SentAre(p, p.unitOf[n], a);
    hide ProgramOk, Prepare, PreparedMembers;
    var sent := PreparedMembers(p, p.units[p.unitOf[n]].members, a);
    i :| 0 <= i < |sent| && sent[i].node == n;
    assert FromMember(p, p.units[p.unitOf[n]].members, a, sent[i]);
  }

  lemma CacheFollows(p: Program, n: NodeId, a: Assignment, found: Lookups)
    requires ProgramOk(p) && n in p.nodes && n in a && CacheExplained(p, n, a, found) && Honest(p.host.exec)
    requires FoundOk(p, a, found)
    ensures Follows(p, n, a, true)
  {
    UnitOfNode(p, n);
    var u := p.unitOf[n];
    MembersAreNodes(p, u);
    assert p.nodes[n].tool == p.units[u].tool by {
      assert UnitOk(p, p.units[u]);
    }
    hide ProgramOk, UnitReady, Honest, PreparedMembers, Prepare, FanOut, CachedFanOut, BatchResult, HitsSucceed;
    if !Stopped(a[n]) && Prepare(p, n, a).Ready? {
      var member := Prepare(p, n, a).member;
      var i := SentAt(p, n, a);
      var sent := PreparedMembers(p, p.units[u].members, a);
      if p.units[u].batch {
        SentAlone(p, u, n, a, member);
        SentDistinct(p, u, a);
        if AllSucceed(p.host.exec, p.units[u].tool, sent) {
          CachedBatchIsOwn(p.host.exec, p.units[u].tool, sent, found(u), i);
        }
      } else if member.items.Some? && ItemsSucceed(p.host.exec, p.units[u].tool, member) {
        CachedFanOutIsOwn(p.host.exec, p.units[u].tool, member, ItemHits(found(u), sent[i].node));
      }
    }
  }

  /** A run through a truthful cache is the run without one: where it was not
      stopped it ends with the node-by-node meaning, whatever was cached, as
      long as no batch and no batchable fan-out of that meaning sends a call
      that fails. */
  lemma CachedRunsAreSound(p: Program, rank: seq<nat>, cached: Assignment, found: Lookups, full: Assignment)
    requires ProgramOk(p) && DataRank(p, rank) && Honest(p.host.exec)
    requires SoloMeaning(p, full) && BatchesSucceed(p, full) && FanOutsSucceed(p, full)
    requires CacheComplete(p, cached, found) && FoundOk(p, cached, found)
    ensures forall n | n in p.nodes && Reached(cached[n]) :: full[n] == cached[n]
    ensures NothingStopped(cached) ==> cached == full
  {
    hide ProgramOk, DataRank, Honest, BatchesSucceed, FanOutsSucceed, SoloMeaning, CacheExplained, FoundOk, Follows,
      Reached, NothingStopped;
    forall n | n in cached
      ensures Follows(p, n, cached, true)
    {
      CacheFollows(p, n, cached, found);
    }
    RunAgrees(p, rank, cached, full, true);
  }

  // Exactly when the cache does not show.

  lemma CachedStable(p: Program, u: nat, n: NodeId, a: Assignment, b: Assignment, hits: Hits)
    requires ProgramOk(p) && u < |p.units| && n in p.units[u].members && SameForUnit(p, u, a, b)
    ensures MembersKnown(p, u)
    ensures CachedOutcome(p, u, n, a, hits) == CachedOutcome(p, u, n, b, hits)
  {
    hide CachedResult;
    PrepareStable(p, u, n, a, b);
    PreparedStable(p, u, p.units[u].members, a, b);
  }

  lemma {:induction false} CachedAgreeAt(p: Program, rank: seq<nat>, a: Assignment, b: Assignment, found: Lookups,
      n: NodeId)
    requires ProgramOk(p) && DataRank(p, rank) && CacheComplete(p, a, found) && CacheComplete(p, b, found)
    requires NothingStopped(a) && NothingStopped(b) && n in p.nodes
    ensures a[n] == b[n]
    decreases rank[p.unitOf[n]]
  {
    RefersWithin(p, rank, n);
    UnitOfNode(p, n);
    hide ProgramOk, DataRank, Prepare, CachedOutcome, DependsOn, Stopped;
    assert CacheExplained(p, n, a, found) && CacheExplained(p, n, b, found);
    var u := p.unitOf[n];
    forall d | DependsOn(p, u, d)
      ensures d in a && d in b && a[d] == b[d]
    {
      CachedAgreeAt(p, rank, a, b, found, d);
    }
    CachedStable(p, u, n, a, b, found(u));
  }

  /** Given what was found, every node reports what it would on its own. */
  ghost predicate HitsDoNotShow(p: Program, a: Assignment, found: Lookups) {
    forall n | n in p.nodes :: HitsDoNotShowAt(p, n, a, found)
  }

  ghost predicate HitsDoNotShowAt(p: Program, n: NodeId, a: Assignment, found: Lookups) {
    && n in p.nodes && n in p.unitOf && MembersKnown(p, p.unitOf[n])
    && var unit, prepared := p.units[p.unitOf[n]], Prepare(p, n, a);
       prepared.Ready? ==>
         CachedResult(p.host.exec, unit.tool, unit.batch, PreparedMembers(p, unit.members, a), found(p.unitOf[n]),
                      prepared.member) == SingleResult(p.host.exec, unit.tool, prepared.member)
  }

  lemma ShowsAt(p: Program, n: NodeId, a: Assignment, found: Lookups)
    requires ProgramOk(p) && n in p.nodes
    ensures MembersKnown(p, p.unitOf[n]) && n in p.units[p.unitOf[n]].members
    ensures HitsDoNotShowAt(p, n, a, found) <==>
            CachedOutcome(p, p.unitOf[n], n, a, found(p.unitOf[n])) == SoloOutcome(p.host, p.tools, p.nodes[n], a)
  {
    UnitOfNode(p, n);
    var u := p.unitOf[n];
    MembersAreNodes(p, u);
    assert p.nodes[n].tool == p.units[u].tool by {
      assert UnitOk(p, p.units[u]);
    }
    hide ProgramOk, Prepare, CachedResult, SingleResult, PreparedMembers, SoloOutcome;
    SoloOfPrepared(p, n, a);
  }

  /** A finished run through the cache is the node-by-node meaning exactly when,
      given what its lookups found, no unit of that meaning would report anything
      but its members' own results. */
  lemma CachedRunIsMeaning(p: Program, rank: seq<nat>, a: Assignment, ran: Assignment, found: Lookups)
    requires ProgramOk(p) && DataRank(p, rank) && SoloMeaning(p, a) && CacheComplete(p, ran, found)
      && NothingStopped(ran)
    ensures ran == a <==> HitsDoNotShow(p, a, found)
  {
    hide ProgramOk, DataRank, CachedOutcome, SoloOutcome, Stopped, HitsDoNotShowAt, DependsOn;
    if HitsDoNotShow(p, a, found) {
      forall n | n in a
        ensures CacheExplained(p, n, a, found) && !Stopped(a[n])
      {
        ShowsAt(p, n, a, found);
        RefersWithin(p, rank, n);
        SoloNotStopped(p.host, p.tools, p.nodes[n], a);
      }
      forall n | n in p.nodes
        ensures ran[n] == a[n]
      {
        CachedAgreeAt(p, rank, ran, a, found, n);
      }
    }
    if ran == a {
      forall n | n in p.nodes
        ensures HitsDoNotShowAt(p, n, a, found)
      {
        assert CacheExplained(p, n, ran, found);
        ShowsAt(p, n, a, found);
      }
    }
  }

  /** With the default adapter, a batch does not show its hits exactly when the
      calls it still sends all succeed or all fail alike: a hit can take a failing
      batch's members out of it. */
  lemma DefaultBatchHits(p: Program, u: nat, a: Assignment, hits: Hits)
    requires ProgramOk(p) && u < |p.units| && p.units[u].batch && DefaultBatch(p.host.exec) && MembersKnown(p, u)
    ensures var exec, tool, sent := p.host.exec, p.units[u].tool, PreparedMembers(p, p.units[u].members, a);
      (forall i | 0 <= i < |sent| ::
         CachedResult(exec, tool, true, sent, hits, sent[i]) == exec.call(tool, sent[i].input))
      <==> AllSucceed(exec, tool, Missed(sent, hits.members)) || AllFailAlike(exec, tool, Missed(sent, hits.members))
  {
    SentDistinct(p, u, a);
    hide ProgramOk, DefaultBatch, PreparedMembers, AllSucceed, AllFailAlike, BatchResult, Missed;
    var exec, tool, sent := p.host.exec, p.units[u].tool, PreparedMembers(p, p.units[u].members, a);
    var missed := Missed(sent, hits.members);
    MissedMembers(sent, hits.members);
    BatchPoisons(exec, tool, missed);
    if Pointwise(exec, tool, missed) {
      forall i | 0 <= i < |sent|
        ensures CachedResult(exec, tool, true, sent, hits, sent[i]) == exec.call(tool, sent[i].input)
      {
        if sent[i].node !in hits.members {
          MissedAt(sent, hits.members, i);
          var k :| 0 <= k < |missed| && missed[k] == sent[i];
        }
      }
    }
    if forall i | 0 <= i < |sent| ::
         CachedResult(exec, tool, true, sent, hits, sent[i]) == exec.call(tool, sent[i].input)
    {
      forall k | 0 <= k < |missed|
        ensures BatchResult(exec, tool, missed, missed[k].node) == exec.call(tool, missed[k].input)
      {
        assert missed[k] in missed;
        var i :| 0 <= i < |sent| && sent[i] == missed[k];
        assert CachedResult(exec, tool, true, sent, hits, sent[i]) == exec.call(tool, sent[i].input);
      }
    }
  }
}
