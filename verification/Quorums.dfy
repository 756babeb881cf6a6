/** Quorum tests of a consensus node: flat thresholds, v-blocking sets and the
    shrinking loop that looks for a transitive quorum. */
module Quorums {

  type NodeID = nat
  type Hash = nat

  /** A flat quorum set. Validators may repeat; a repeated validator counts once per occurrence. */
  datatype QuorumSet = QuorumSet(threshold: nat, validators: seq<NodeID>)

  function Members(vs: seq<NodeID>): set<NodeID>
  {
    set v | v in vs
  }

  /** How many validator slots are taken by members of `nodes`. */
  function Count(vs: seq<NodeID>, nodes: set<NodeID>): nat
  {
    if |vs| == 0 then 0
    else Count(vs[..|vs| - 1], nodes) + if vs[|vs| - 1] in nodes then 1 else 0
  }

  predicate HasQuorum(q: QuorumSet, nodes: set<NodeID>)
  {
    Count(q.validators, nodes) >= q.threshold
  }

  predicate IsVBlocking(q: QuorumSet, nodes: set<NodeID>)
  {
    q.threshold != 0 && |q.validators| - Count(q.validators, nodes) < q.threshold
  }

  /** Every member of `nodes` finds a quorum of its own inside `nodes`. */
  ghost predicate SelfSufficient(nodes: set<NodeID>, qs: map<NodeID, QuorumSet>)
  {
    nodes <= qs.Keys && forall n :: n in nodes ==> HasQuorum(qs[n], nodes)
  }

  /** One round of the shrinking loop: drop the members without a quorum. */
  function Satisfied(nodes: set<NodeID>, qs: map<NodeID, QuorumSet>): set<NodeID>
    requires nodes <= qs.Keys
  {
    set n | n in nodes && HasQuorum(qs[n], nodes)
  }

  /** What the shrinking loop ends with. */
  function Sustained(nodes: set<NodeID>, qs: map<NodeID, QuorumSet>): (sustained: set<NodeID>)
    requires nodes <= qs.Keys
    ensures sustained <= nodes
    decreases nodes
  {
    var kept := Satisfied(nodes, qs);
    if kept == nodes then nodes else Sustained(kept, qs)
  }

  predicate IsQuorumTransitive(q: QuorumSet, qs: map<NodeID, QuorumSet>)
  {
    HasQuorum(q, Sustained(qs.Keys, qs))
  }

  lemma {:induction false} CountMonotone(vs: seq<NodeID>, a: set<NodeID>, b: set<NodeID>)
    requires a <= b
    ensures Count(vs, a) <= Count(vs, b) <= |vs|
  {
    if |vs| != 0 {
      CountMonotone(vs[..|vs| - 1], a, b);
    }
  }

  lemma {:induction false} CountDisjoint(vs: seq<NodeID>, a: set<NodeID>, b: set<NodeID>)
    requires a !! b
    ensures Count(vs, a) + Count(vs, b) <= |vs|
    ensures (forall v :: v in vs ==> v in a || v in b) ==> Count(vs, a) + Count(vs, b) == |vs|
  {
    if |vs| != 0 {
      assert forall v :: v in vs[..|vs| - 1] ==> v in vs;
      CountDisjoint(vs[..|vs| - 1], a, b);
    }
  }

  /** A set is v-blocking exactly when no node set that avoids it is a quorum. */
  lemma VBlockingIsDual(q: QuorumSet, nodes: set<NodeID>)
    ensures IsVBlocking(q, nodes) <==> !exists others :: others !! nodes && HasQuorum(q, others)
  {
    var rest := Members(q.validators) - nodes;
    CountDisjoint(q.validators, nodes, rest);
    if !IsVBlocking(q, nodes) {
      assert rest !! nodes && HasQuorum(q, rest);
    }
    forall others | others !! nodes && HasQuorum(q, others)
      ensures !IsVBlocking(q, nodes)
    {
      CountDisjoint(q.validators, nodes, others);
    }
  }

  /** The shrinking loop computes the greatest self-sufficient subset. */
  lemma {:induction false} SustainedIsGreatest(nodes: set<NodeID>, qs: map<NodeID, QuorumSet>)
    requires nodes <= qs.Keys
    ensures SelfSufficient(Sustained(nodes, qs), qs)
    ensures forall u :: u <= nodes && SelfSufficient(u, qs) ==> u <= Sustained(nodes, qs)
    decreases nodes
  {
    var kept := Satisfied(nodes, qs);
    if kept != nodes {
      SustainedIsGreatest(kept, qs);
      forall u | u <= nodes && SelfSufficient(u, qs)
        ensures u <= kept
      {
        forall n | n in u ensures n in kept {
          CountMonotone(qs[n].validators, u, nodes);
        }
      }
    }
  }

  /** The transitive test succeeds exactly when some subset of the voting nodes is a quorum
      for each of its members and for the local node. */
  lemma TransitiveQuorumIff(q: QuorumSet, qs: map<NodeID, QuorumSet>)
    ensures IsQuorumTransitive(q, qs) <==>
            exists u :: SelfSufficient(u, qs) && HasQuorum(q, u)
  {
    SustainedIsGreatest(qs.Keys, qs);
    forall u | SelfSufficient(u, qs) && HasQuorum(q, u)
      ensures IsQuorumTransitive(q, qs)
    {
      CountMonotone(q.validators, u, Sustained(qs.Keys, qs));
    }
  }

  predicate Distinct(vs: seq<NodeID>)
  {
    forall i, j :: 0 <= i < j < |vs| ==> vs[i] != vs[j]
  }

  lemma {:induction false} CountIsCardinality(vs: seq<NodeID>, nodes: set<NodeID>)
    requires Distinct(vs)
    ensures Count(vs, nodes) == |nodes * Members(vs)|
  {
    if |vs| == 0 {
      assert nodes * Members(vs) == {};
    } else {
      var front, last := vs[..|vs| - 1], vs[|vs| - 1];
      CountIsCardinality(front, nodes);
      MembersOneMore(vs, nodes);
    }
  }

  lemma MembersOneMore(vs: seq<NodeID>, nodes: set<NodeID>)
    requires Distinct(vs) && |vs| > 0
    ensures var front, last := vs[..|vs| - 1], vs[|vs| - 1];
            |nodes * Members(vs)| == |nodes * Members(front)| + if last in nodes then 1 else 0
  {
    var front, last := vs[..|vs| - 1], vs[|vs| - 1];
    var before := nodes * Members(front);
    assert last !in Members(front);
    if last in nodes {
      assert nodes * Members(vs) == before + {last};
    } else {
      assert nodes * Members(vs) == before;
    }
  }

  lemma SmallerSet<T>(a: set<T>, b: set<T>)
    requires a <= b
    ensures |a| <= |b|
    ensures a != b ==> |a| < |b|
  {
    assert b == a + (b - a);
    assert |b| == |a| + |b - a|;
  }

  /** With n common distinct validators, threshold t and 2t - n above the number of
      faulty nodes, any two quorums share a validator that is not faulty. */
  lemma ThresholdQuorumsIntersect(q: QuorumSet, faulty: set<NodeID>, a: set<NodeID>, b: set<NodeID>)
    requires Distinct(q.validators)
    requires 2 * q.threshold - |q.validators| > |faulty|
    requires HasQuorum(q, a) && HasQuorum(q, b)
    ensures exists n :: n in a && n in b && n in q.validators && n !in faulty
  {
    var v := Members(q.validators);
    CountIsCardinality(q.validators, a);
    CountIsCardinality(q.validators, b);
    CountIsCardinality(q.validators, v);
    CountDisjoint(q.validators, v, {});
    assert v * v == v;
    var both := a * b * v;
    assert (a * v) + (b * v) <= v;
    SmallerSet((a * v) + (b * v), v);
    assert (a * v) * (b * v) == both;
    assert |both| > |faulty|;
    if both <= faulty {
      SmallerSet(both, faulty);
      assert false;
    }
    var n :| n in both && n !in faulty;
  }

  /** Counting loop of the quorum test. */
  method TestQuorum(q: QuorumSet, nodeSet: seq<NodeID>) returns (result: bool)
    ensures result <==> HasQuorum(q, Members(nodeSet))
  {
    var count := 0;
    for i := 0 to |q.validators|
      invariant count == Count(q.validators[..i], Members(nodeSet))
    {
      assert q.validators[..i + 1][..i] == q.validators[..i];
      if q.validators[i] in nodeSet {
        count := count + 1;
      }
    }
    assert q.validators[..|q.validators|] == q.validators;
    result := count >= q.threshold;
  }

  /** Counting loop of the v-blocking test; the threshold-zero set has no v-blocking set. */
  method TestVBlocking(q: QuorumSet, nodeSet: seq<NodeID>) returns (result: bool)
    ensures result <==> !exists others :: others !! Members(nodeSet) && HasQuorum(q, others)
  {
    VBlockingIsDual(q, Members(nodeSet));
    if q.threshold == 0 {
      return false;
    }
    var count := 0;
    for i := 0 to |q.validators|
      invariant count == Count(q.validators[..i], Members(nodeSet))
    {
      assert q.validators[..i + 1][..i] == q.validators[..i];
      if q.validators[i] in nodeSet {
        count := count + 1;
      }
    }
    assert q.validators[..|q.validators|] == q.validators;
    result := |q.validators| - count < q.threshold;
  }

  /** The shrinking loop over the vector of filtered nodes. */
  method TestQuorumTransitive(q: QuorumSet, filtered: seq<NodeID>, qs: map<NodeID, QuorumSet>)
    returns (result: bool)
    requires Distinct(filtered) && Members(filtered) == qs.Keys
    ensures result <==> exists u :: SelfSufficient(u, qs) && HasQuorum(q, u)
  {
    TransitiveQuorumIff(q, qs);
    var pNodes := filtered;
    var shrinking := true;
    while shrinking
      invariant Distinct(pNodes) && Members(pNodes) <= qs.Keys
      invariant Sustained(qs.Keys, qs) == Sustained(Members(pNodes), qs)
      invariant !shrinking ==> Satisfied(Members(pNodes), qs) == Members(pNodes)
      decreases shrinking, |pNodes|
    {
      var fNodes := [];
      for i := 0 to |pNodes|
        invariant |fNodes| <= i
        invariant |fNodes| == i ==> fNodes == pNodes[..i]
        invariant forall n :: n in fNodes ==> n in pNodes[..i]
        invariant forall n :: n in pNodes[..i] ==> (n in fNodes <==> HasQuorum(qs[n], Members(pNodes)))
        invariant Distinct(fNodes)
      {
        assert pNodes[i] in Members(pNodes);
        var ok := TestQuorum(qs[pNodes[i]], pNodes);
        if ok {
          assert pNodes[i] !in pNodes[..i];
          fNodes := fNodes + [pNodes[i]];
        }
      }
      assert pNodes[..|pNodes|] == pNodes;
      assert Members(fNodes) == Satisfied(Members(pNodes), qs);
      shrinking := |fNodes| != |pNodes|;
      pNodes := fNodes;
    }
    result := TestQuorum(q, pNodes);
  }
}
