/** The reference meaning of a program: evaluate units by rank, each from the
    outcomes of what it refers to. No scheduler, limits, locks or priorities. */
module Evaluation {
  import opened Plans
  import opened Semantics

  /** The outcomes of all nodes whose unit ranks below `k`. */
  ghost function EvaluateBelow(p: Program, rank: seq<nat>, k: nat): (a: Assignment)
    requires ProgramOk(p) && |rank| == |p.units|
    ensures a.Keys == set n | n in p.nodes && rank[p.unitOf[n]] < k
  {
    if k == 0 then map[]
    else
      var below := EvaluateBelow(p, rank, k - 1);
      map n | n in p.nodes && rank[p.unitOf[n]] < k ::
        if n in below then below[n] else OutcomeOf(p, n, below)
  }

  ghost function OutcomeOf(p: Program, n: NodeId, a: Assignment): Outcome
    requires ProgramOk(p) && n in p.nodes
  {
    MembersOf(p, p.unitOf[n]);
    UnitOutcome(p, p.unitOf[n], n, a)
  }

  lemma MembersOf(p: Program, u: nat)
    requires ProgramOk(p) && u < |p.units|
    ensures MembersKnown(p, u)
  {
  }

  ghost function Above(rank: seq<nat>): (k: nat)
    ensures forall i | 0 <= i < |rank| :: rank[i] < k
  {
    if rank == [] then 0
    else
      var k := Above(rank[..|rank| - 1]);
      assert forall i | 0 <= i < |rank| - 1 :: rank[i] == rank[..|rank| - 1][i];
      if rank[|rank| - 1] < k then k else rank[|rank| - 1] + 1
  }

  /** The outcome of every node. */
  ghost function Evaluate(p: Program, rank: seq<nat>): Assignment
    requires ProgramOk(p) && |rank| == |p.units|
  {
    EvaluateBelow(p, rank, Above(rank))
  }

  lemma OutcomeNotStopped(p: Program, n: NodeId, a: Assignment)
    requires ProgramOk(p) && n in p.nodes
    ensures !Stopped(OutcomeOf(p, n, a))
  {
    MembersOf(p, p.unitOf[n]);
  }

  lemma BelowGrows(p: Program, rank: seq<nat>, k: nat)
    requires ProgramOk(p) && |rank| == |p.units|
    ensures Extends(EvaluateBelow(p, rank, k), EvaluateBelow(p, rank, k + 1))
  {
    hide ProgramOk;
  }

  lemma ReadyBelow(p: Program, rank: seq<nat>, k: nat, u: nat)
    requires ProgramOk(p) && DataRank(p, rank) && u < |p.units| && rank[u] <= k
    ensures UnitReady(p, u, EvaluateBelow(p, rank, k))
  {
    hide ProgramOk, DependsOn;
  }

  ghost predicate Sound(p: Program, a: Assignment)
    requires ProgramOk(p)
  {
    Consistent(p, a) && NothingStopped(a)
  }

  lemma {:induction false} BelowConsistent(p: Program, rank: seq<nat>, k: nat)
    requires ProgramOk(p) && DataRank(p, rank)
    ensures Sound(p, EvaluateBelow(p, rank, k))
  {
    hide *;
    if k == 0 {
      NothingSound(p, rank);
    } else {
      BelowConsistent(p, rank, k - 1);
      NextSound(p, rank, k - 1);
    }
  }

  lemma NothingSound(p: Program, rank: seq<nat>)
    requires ProgramOk(p) && DataRank(p, rank)
    ensures Sound(p, EvaluateBelow(p, rank, 0))
  {
    hide ProgramOk, Explained;
  }

  lemma NextSound(p: Program, rank: seq<nat>, k: nat)
    requires ProgramOk(p) && DataRank(p, rank) && Sound(p, EvaluateBelow(p, rank, k))
    ensures Sound(p, EvaluateBelow(p, rank, k + 1))
  {
    hide ProgramOk, DependsOn, Explained, Stopped, Sound, EvaluateBelow;
    var a := EvaluateBelow(p, rank, k + 1);
    forall n | n in a
      ensures Explained(p, n, a) && !Stopped(a[n])
    {
      BelowExplained(p, rank, k, n);
    }
    AllExplained(p, a);
  }

  lemma AllExplained(p: Program, a: Assignment)
    requires ProgramOk(p) && a.Keys <= p.nodes.Keys
    requires forall n | n in a :: Explained(p, n, a) && !Stopped(a[n])
    ensures Sound(p, a)
  {
    hide ProgramOk, Explained, Stopped;
  }

  lemma BelowExplained(p: Program, rank: seq<nat>, k: nat, n: NodeId)
    requires ProgramOk(p) && DataRank(p, rank)
    requires Sound(p, EvaluateBelow(p, rank, k))
    requires n in EvaluateBelow(p, rank, k + 1)
    ensures Explained(p, n, EvaluateBelow(p, rank, k + 1)) && !Stopped(EvaluateBelow(p, rank, k + 1)[n])
  {
    var below, a := EvaluateBelow(p, rank, k), EvaluateBelow(p, rank, k + 1);
    var u := p.unitOf[n];
    BelowGrows(p, rank, k);
    ReadyBelow(p, rank, k, u);
    if n in below {
      ExplainedStays(p, n, below, a);
    } else {
      ExtendedSameForUnit(p, u, below, a);
      OutcomeStable(p, u, n, below, a);
      OutcomeNotStopped(p, n, below);
    }
  }

  /** Every program has a complete outcome in which nothing was stopped. */
  lemma EvaluateIsComplete(p: Program, rank: seq<nat>)
    requires ProgramOk(p) && DataRank(p, rank)
    ensures Complete(p, Evaluate(p, rank)) && NothingStopped(Evaluate(p, rank))
  {
    BelowConsistent(p, rank, Above(rank));
  }

  /** A complete outcome in which nothing was stopped is the evaluation. */
  lemma CompleteIsEvaluation(p: Program, rank: seq<nat>, a: Assignment)
    requires ProgramOk(p) && DataRank(p, rank) && Complete(p, a) && NothingStopped(a)
    ensures a == Evaluate(p, rank)
  {
    EvaluateIsComplete(p, rank);
    Unique(p, rank, a, Evaluate(p, rank));
  }
}
