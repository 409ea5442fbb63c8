/** When running units in batches means what running their nodes one by one
    means: exactly when every batch call gives its members their own results. */
module BatchRuns {
  import opened Plans
  import opened Calls
  import opened Semantics
  import opened Meanings
  import opened Engines

  // ------------------------------------------------------------ one unit

  lemma {:induction false} PreparedDistinct(p: Program, members: seq<NodeId>, a: Assignment)
    requires forall n | n in members :: n in p.nodes && p.nodes[n].id == n
    requires forall i, j | 0 <= i < j < |members| :: members[i] != members[j]
    ensures DistinctMembers(PreparedMembers(p, members, a))
  {
    if members != [] {
      var init := members[..|members| - 1];
      PreparedDistinct(p, init, a);
      PreparedAreMembers(p, init, a);
      PreparedNode(p, members[|members| - 1], a);
      hide Prepare;
      var before := PreparedMembers(p, init, a);
      forall i | 0 <= i < |before|
        ensures before[i].node != members[|members| - 1]
      {
        assert FromMember(p, init, a, before[i]);
      }
    }
  }

  /** A node that expands nothing is prepared without items. */
  lemma NoItems(p: Program, n: NodeId, a: Assignment)
    requires n in p.nodes && p.nodes[n].forEach.None? && Prepare(p, n, a).Ready?
    ensures Prepare(p, n, a).member.items.None?
  {
  }

  lemma SoloOfPrepared(p: Program, n: NodeId, a: Assignment)
    requires n in p.nodes
    ensures SoloOutcome(p.host, p.tools, p.nodes[n], a) ==
      match Prepare(p, n, a) case Settled(outcome) => outcome
        case Ready(member) => ResultOutcome(SingleResult(p.host.exec, p.nodes[n].tool, member))
  {
    hide PrepareMember, SingleResult;
  }

  /** A unit of one node reports what the node would on its own. */
  lemma SingleUnitIsSolo(p: Program, u: nat, n: NodeId, a: Assignment)
    requires ProgramOk(p) && u < |p.units| && !p.units[u].batch && n in p.units[u].members
    ensures MembersKnown(p, u) && n in p.nodes
    ensures UnitOutcome(p, u, n, a) == SoloOutcome(p.host, p.tools, p.nodes[n], a)
  {
    MembersAreNodes(p, u);
    assert UnitOk(p, p.units[u]);
    hide ProgramOk, Prepare, SingleResult, SoloOutcome;
    SoloOfPrepared(p, n, a);
  }

  /** What the unit's batch call gives each member it sends is the member's own result. */
  ghost predicate UnitPointwise(p: Program, u: nat, a: Assignment)
    requires MembersKnown(p, u)
  {
    Pointwise(p.host.exec, p.units[u].tool, PreparedMembers(p, p.units[u].members, a))
  }

  ghost predicate UnitIsSolo(p: Program, u: nat, a: Assignment)
    requires MembersKnown(p, u)
  {
    forall n | n in p.units[u].members :: UnitOutcome(p, u, n, a) == SoloOutcome(p.host, p.tools, p.nodes[n], a)
  }

  /** The member of a batch that sends it, alone: its own call. */
  lemma SentAlone(p: Program, u: nat, n: NodeId, a: Assignment, member: PreparedMember)
    requires ProgramOk(p) && u < |p.units| && p.units[u].batch && n in p.units[u].members && n in p.nodes
    requires Prepare(p, n, a) == Ready(member)
    ensures member.node == n
    ensures SingleResult(p.host.exec, p.units[u].tool, member) == p.host.exec.call(p.units[u].tool, member.input)
    ensures SoloOutcome(p.host, p.tools, p.nodes[n], a) ==
      ResultOutcome(p.host.exec.call(p.units[u].tool, member.input))
  {
    assert UnitOk(p, p.units[u]);
    hide SoloOutcome, Prepare;
    PreparedNode(p, n, a);
    NoItems(p, n, a);
    SoloOfPrepared(p, n, a);
  }

  lemma SentDistinct(p: Program, u: nat, a: Assignment)
    requires ProgramOk(p) && u < |p.units|
    ensures MembersKnown(p, u)
    ensures DistinctMembers(PreparedMembers(p, p.units[u].members, a))
  {
    assert UnitOk(p, p.units[u]);
    MembersAreNodes(p, u);
    hide UnitOk, Prepare;
    PreparedDistinct(p, p.units[u].members, a);
  }

  /** `sent` holds the members that passed their gates. */
  ghost predicate SentBy(p: Program, members: seq<NodeId>, a: Assignment, sent: seq<PreparedMember>)
    requires forall n | n in members :: n in p.nodes
  {
    && (forall i | 0 <= i < |sent| :: FromMember(p, members, a, sent[i]))
    && forall n | n in members && Prepare(p, n, a).Ready? :: InPrepared(sent, n)
  }

  lemma SentAre(p: Program, u: nat, a: Assignment)
    requires ProgramOk(p) && u < |p.units|
    ensures MembersKnown(p, u) && SentBy(p, p.units[u].members, a, PreparedMembers(p, p.units[u].members, a))
  {
    MembersAreNodes(p, u);
    hide Prepare;
    PreparedAreMembers(p, p.units[u].members, a);
  }

  /** A batch unit reports for all its members what each would report alone
      exactly when its call answers each member it sends as the member's own
      call would. Members that fail or skip before that do not matter. */
  lemma BatchUnitIsSolo(p: Program, u: nat, a: Assignment)
    requires ProgramOk(p) && u < |p.units| && p.units[u].batch
    ensures MembersKnown(p, u) && (UnitPointwise(p, u, a) <==> UnitIsSolo(p, u, a))
  {
    var exec, tool, members := p.host.exec, p.units[u].tool, p.units[u].members;
    SentAre(p, u, a);
    hide ProgramOk, Prepare, SoloOutcome, SingleResult, PreparedMembers;
    var sent := PreparedMembers(p, members, a);
    if UnitPointwise(p, u, a) {
      forall n | n in members
        ensures UnitOutcome(p, u, n, a) == SoloOutcome(p.host, p.tools, p.nodes[n], a)
      {
        PointwiseMember(p, u, n, a);
      }
    }
    if UnitIsSolo(p, u, a) {
      forall i | 0 <= i < |sent|
        ensures BatchResult(exec, tool, sent, sent[i].node) == exec.call(tool, sent[i].input)
      {
        assert FromMember(p, members, a, sent[i]);
        SentAlone(p, u, sent[i].node, a, sent[i]);
        SameResult(BatchResult(exec, tool, sent, sent[i].node), exec.call(tool, sent[i].input));
      }
    }
  }

  lemma PointwiseMember(p: Program, u: nat, n: NodeId, a: Assignment)
    requires ProgramOk(p) && u < |p.units| && p.units[u].batch && n in p.units[u].members && MembersKnown(p, u)
    requires UnitPointwise(p, u, a)
    ensures UnitOutcome(p, u, n, a) == SoloOutcome(p.host, p.tools, p.nodes[n], a)
  {
    SentAre(p, u, a);
    hide ProgramOk, Prepare, SoloOutcome, SingleResult, PreparedMembers;
    SoloOfPrepared(p, n, a);
    var sent := PreparedMembers(p, p.units[u].members, a);
    if Prepare(p, n, a).Ready? {
      var i :| 0 <= i < |sent| && sent[i].node == n;
      assert FromMember(p, p.units[u].members, a, sent[i]);
      SentAlone(p, u, n, a, sent[i]);
    }
  }

  lemma SameResult(x: CallResult, y: CallResult)
    requires ResultOutcome(x) == ResultOutcome(y)
    ensures x == y
  {
  }

  // ------------------------------------------------------------ whole runs

  /** Every node has the outcome it would have on its own. */
  ghost predicate SoloMeaning(p: Program, a: Assignment)
    requires ProgramOk(p)
  {
    a.Keys == p.nodes.Keys && forall n | n in a :: a[n] == SoloOutcome(p.host, p.tools, p.nodes[n], a)
  }

  ghost predicate BatchesPointwise(p: Program, a: Assignment) {
    forall u | 0 <= u < |p.units| && p.units[u].batch :: MembersKnown(p, u) && UnitPointwise(p, u, a)
  }

  /** No batch sends a call that fails. */
  ghost predicate BatchesSucceed(p: Program, a: Assignment) {
    forall u | 0 <= u < |p.units| && p.units[u].batch ::
      MembersKnown(p, u) && AllSucceed(p.host.exec, p.units[u].tool, PreparedMembers(p, p.units[u].members, a))
  }

  /** No batch mixes a failing call with one that ends differently. */
  ghost predicate BatchesAgree(p: Program, a: Assignment) {
    forall u | 0 <= u < |p.units| && p.units[u].batch ::
      && MembersKnown(p, u)
      && var sent := PreparedMembers(p, p.units[u].members, a);
         AllSucceed(p.host.exec, p.units[u].tool, sent) || AllFailAlike(p.host.exec, p.units[u].tool, sent)
  }

  /** With an honest adapter, batches whose calls succeed answer member by member. */
  lemma HonestBatches(p: Program, a: Assignment)
    requires ProgramOk(p) && Honest(p.host.exec) && BatchesSucceed(p, a)
    ensures BatchesPointwise(p, a)
  {
    hide Honest, PreparedMembers, BatchResult;
    forall u | 0 <= u < |p.units| && p.units[u].batch
      ensures MembersKnown(p, u) && UnitPointwise(p, u, a)
    {
      SentDistinct(p, u, a);
      var sent := PreparedMembers(p, p.units[u].members, a);
      forall i | 0 <= i < |sent|
        ensures BatchResult(p.host.exec, p.units[u].tool, sent, sent[i].node) ==
          p.host.exec.call(p.units[u].tool, sent[i].input)
      {
        BatchIsPointwise(p.host.exec, p.units[u].tool, sent, i);
      }
    }
  }

  /** With the default adapter, they do exactly when no batch mixes results. */
  lemma DefaultBatches(p: Program, a: Assignment)
    requires ProgramOk(p) && DefaultBatch(p.host.exec)
    ensures BatchesPointwise(p, a) <==> BatchesAgree(p, a)
  {
    hide DefaultBatch, PreparedMembers, Pointwise, AllSucceed, AllFailAlike;
    forall u | 0 <= u < |p.units| && p.units[u].batch
      ensures MembersKnown(p, u)
      ensures var sent := PreparedMembers(p, p.units[u].members, a);
        UnitPointwise(p, u, a) <==>
          AllSucceed(p.host.exec, p.units[u].tool, sent) || AllFailAlike(p.host.exec, p.units[u].tool, sent)
    {
      SentDistinct(p, u, a);
      BatchPoisons(p.host.exec, p.units[u].tool, PreparedMembers(p, p.units[u].members, a));
    }
  }

  lemma SoloNotStopped(host: Host, tools: map<ToolName, ToolSpec>, node: Node, a: Assignment)
    ensures !Stopped(SoloOutcome(host, tools, node, a))
  {
  }

  lemma UnitOfNode(p: Program, n: NodeId)
    requires ProgramOk(p) && n in p.nodes
    ensures n in p.unitOf && p.unitOf[n] < |p.units| && n in p.units[p.unitOf[n]].members
  {
  }

  /** A member of a unit whose outcome is explained as its own. */
  lemma UnitIsSoloAt(p: Program, n: NodeId, a: Assignment)
    requires ProgramOk(p) && n in p.nodes && BatchesPointwise(p, a)
    ensures MembersKnown(p, p.unitOf[n]) && n in p.units[p.unitOf[n]].members
    ensures UnitOutcome(p, p.unitOf[n], n, a) == SoloOutcome(p.host, p.tools, p.nodes[n], a)
  {
    UnitOfNode(p, n);
    hide ProgramOk, UnitOutcome, SoloOutcome, UnitPointwise;
    if p.units[p.unitOf[n]].batch {
      BatchUnitIsSolo(p, p.unitOf[n], a);
    } else {
      SingleUnitIsSolo(p, p.unitOf[n], n, a);
    }
  }

  /** The node-by-node meaning is what a run of the units ends with. */
  lemma MeaningIsComplete(p: Program, rank: seq<nat>, a: Assignment)
    requires ProgramOk(p) && DataRank(p, rank) && SoloMeaning(p, a) && BatchesPointwise(p, a)
    ensures Complete(p, a) && NothingStopped(a)
  {
    hide ProgramOk, UnitOutcome, SoloOutcome, Stopped, DependsOn, BatchesPointwise;
    forall n | n in a
      ensures Explained(p, n, a) && !Stopped(a[n])
    {
      UnitIsSoloAt(p, n, a);
      UnitOfNode(p, n);
      SoloNotStopped(p.host, p.tools, p.nodes[n], a);
    }
  }

  lemma CompleteAgrees(p: Program, rank: seq<nat>, a: Assignment, b: Assignment)
    requires ProgramOk(p) && DataRank(p, rank) && Complete(p, a) && Complete(p, b) && NothingStopped(a)
      && NothingStopped(b)
    ensures a == b
  {
    Unique(p, rank, a, b);
  }

  /** A finished run, whatever its batches, is the node-by-node meaning exactly
      when each batch call of that meaning answers member by member. */
  lemma BatchedRunIsMeaning(p: Program, rank: seq<nat>, a: Assignment, ran: Assignment)
    requires ProgramOk(p) && DataRank(p, rank) && SoloMeaning(p, a) && Complete(p, ran) && NothingStopped(ran)
    ensures ran == a <==> BatchesPointwise(p, a)
  {
    hide ProgramOk, DataRank, UnitOutcome, SoloOutcome, Stopped, UnitPointwise, UnitReady;
    if BatchesPointwise(p, a) {
      MeaningIsComplete(p, rank, a);
      CompleteAgrees(p, rank, ran, a);
    }
    if ran == a {
      forall u | 0 <= u < |p.units| && p.units[u].batch
        ensures MembersKnown(p, u) && UnitPointwise(p, u, a)
      {
        MembersAreNodes(p, u);
        forall n | n in p.units[u].members
          ensures UnitOutcome(p, u, n, a) == SoloOutcome(p.host, p.tools, p.nodes[n], a)
        {
          assert Explained(p, n, ran);
        }
        BatchUnitIsSolo(p, u, a);
      }
    }
  }

  /** With the default adapter: exactly when no batch of that meaning mixes a
      failing call with one that ends differently. */
  lemma DefaultBatchedRunIsMeaning(p: Program, rank: seq<nat>, a: Assignment, ran: Assignment)
    requires ProgramOk(p) && DataRank(p, rank) && SoloMeaning(p, a) && Complete(p, ran) && NothingStopped(ran)
    requires DefaultBatch(p.host.exec)
    ensures ran == a <==> BatchesAgree(p, a)
  {
    hide *;
    BatchedRunIsMeaning(p, rank, a, ran);
    DefaultBatches(p, a);
  }

  /** A finished run of single units is the node-by-node meaning. */
  lemma UnbatchedIsMeaning(p: Program, a: Assignment)
    requires ProgramOk(p) && Unbatched(p) && Complete(p, a) && NothingStopped(a)
    ensures SoloMeaning(p, a)
  {
    hide ProgramOk, UnitOutcome, SoloOutcome, UnitReady, Stopped;
    forall n | n in a
      ensures a[n] == SoloOutcome(p.host, p.tools, p.nodes[n], a)
    {
      UnitOfNode(p, n);
      assert Explained(p, n, a);
      SingleUnitIsSolo(p, p.unitOf[n], n, a);
    }
  }
}
