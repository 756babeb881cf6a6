/** What the tests of a slot mean: each of them against a definition by sets of nodes and the
    statements on record, without counting or shrinking. */
module SlotVotes {
  import opened Quorums
  import opened SlotModel
  import opened SlotSafety
  import opened SlotQuiet
  import opened SlotAssertions

  ghost predicate Meets(a: set<NodeID>, b: set<NodeID>)
  {
    exists n :: n in a && n in b
  }

  /** Every quorum of the set has a member in `nodes`. */
  ghost predicate Unavoidable(q: QuorumSet, nodes: set<NodeID>)
  {
    forall others :: HasQuorum(q, others) ==> Meets(others, nodes)
  }

  lemma UnavoidableIff(q: QuorumSet, nodes: set<NodeID>)
    ensures IsVBlocking(q, nodes) <==> Unavoidable(q, nodes)
  {
    hide IsVBlocking, HasQuorum;
    VBlockingIsDual(q, nodes);
    forall others ensures Meets(others, nodes) <==> !(others !! nodes) {
    }
  }

  /** `u` satisfies the local quorum set, every member has the statement on record, and `u`
      satisfies the quorum set each of these statements names. */
  ghost predicate QuorumOf(c: Context, stmts: Statements, b: Ballot, kind: Kind, u: set<NodeID>)
  {
    && HasQuorum(Local(c), u)
    && forall n :: n in u ==> Key(b, kind, n) in stmts && HasQuorum(c.lookup(stmts[Key(b, kind, n)].qset), u)
  }

  lemma VotedIff(stmts: Statements, b: Ballot, kind: Kind, n: NodeID)
    ensures n in Voters(stmts, b, kind) <==> Key(b, kind, n) in stmts
  {
    if Key(b, kind, n) in stmts {
      assert Key(b, kind, n).node == n;
    }
  }

  lemma AllVoted(stmts: Statements, b: Ballot, kind: Kind)
    ensures forall n :: n in Voters(stmts, b, kind) <==> Key(b, kind, n) in stmts
  {
    forall n ensures n in Voters(stmts, b, kind) <==> Key(b, kind, n) in stmts {
      VotedIff(stmts, b, kind, n);
    }
  }

  lemma VotesMean(c: Context, stmts: Statements, b: Ballot, kind: Kind)
    ensures IsQuorumTransitive(Local(c), Votes(c, stmts, b, kind)) <==> exists u :: QuorumOf(c, stmts, b, kind, u)
  {
    hide HasQuorum, IsQuorumTransitive, Voters;
    var votes := Votes(c, stmts, b, kind);
    TransitiveQuorumIff(Local(c), votes);
    AllVoted(stmts, b, kind);
    forall u ensures QuorumOf(c, stmts, b, kind, u) <==> SelfSufficient(u, votes) && HasQuorum(Local(c), u) {
    }
  }

  /** Confirmed prepared: an own COMMITTING, or a quorum of PREPARED. */
  lemma PreparedConfirmedMeans(c: Context, stmts: Statements, b: Ballot)
    ensures IsPreparedConfirmed(c, stmts, b) <==>
            Key(b, COMMITTING, c.self) in stmts || exists u :: QuorumOf(c, stmts, b, PREPARED, u)
  {
    hide QuorumOf, IsQuorumTransitive, Votes;
    VotesMean(c, stmts, b, PREPARED);
  }

  /** Committed: an own COMMITTED, or a quorum of COMMITTING. */
  lemma CommittedMeans(c: Context, stmts: Statements, b: Ballot)
    ensures IsCommitted(c, stmts, b) <==>
            Key(b, COMMITTED, c.self) in stmts || exists u :: QuorumOf(c, stmts, b, COMMITTING, u)
  {
    hide QuorumOf, IsQuorumTransitive, Votes;
    VotesMean(c, stmts, b, COMMITTING);
  }

  /** The node's PREPARING stands: every excepted ballot has the current value, or no quorum of
      the node can avoid those that prepared above it. */
  ghost predicate Stands(c: Context, stmts: Statements, current: Value, b: Ballot, n: NodeID)
    requires Key(b, PREPARING, n) in stmts
  {
    var st := stmts[Key(b, PREPARING, n)];
    forall e :: e in st.excepted && e.value != current ==>
      forall others :: HasQuorum(c.lookup(st.qset), others) ==>
        exists m :: m in others && PreparedAbove(c, stmts, b, m, e)
  }

  predicate PreparedAbove(c: Context, stmts: Statements, b: Ballot, m: NodeID, e: Ballot)
  {
    && Key(b, PREPARING, m) in stmts
    && stmts[Key(b, PREPARING, m)].prepared.Some?
    && Less(c, e, stmts[Key(b, PREPARING, m)].prepared.value)
  }

  lemma AbortingMeans(c: Context, stmts: Statements, b: Ballot, e: Ballot, q: QuorumSet)
    ensures IsVBlocking(q, Aborting(c, stmts, b, e)) <==>
            forall others :: HasQuorum(q, others) ==> exists m :: m in others && PreparedAbove(c, stmts, b, m, e)
  {
    hide HasQuorum, IsVBlocking, Less, Voters;
    var nodes := Aborting(c, stmts, b, e);
    UnavoidableIff(q, nodes);
    forall m ensures m in nodes <==> PreparedAbove(c, stmts, b, m, e) {
      VotedIff(stmts, b, PREPARING, m);
    }
    hide Aborting, PreparedAbove;
  }

  lemma RatifiesMeans(c: Context, stmts: Statements, current: Value, b: Ballot, n: NodeID)
    requires Key(b, PREPARING, n) in stmts
    ensures n in Voters(stmts, b, PREPARING)
    ensures Ratifies(c, stmts, current, b, n) <==> Stands(c, stmts, current, b, n)
  {
    VotedIff(stmts, b, PREPARING, n);
    hide HasQuorum, IsVBlocking, Aborting, PreparedAbove, Voters;
    var st := stmts[Key(b, PREPARING, n)];
    forall e ensures IsVBlocking(c.lookup(st.qset), Aborting(c, stmts, b, e)) <==>
                     forall others :: HasQuorum(c.lookup(st.qset), others) ==>
                       exists m :: m in others && PreparedAbove(c, stmts, b, m, e)
    {
      AbortingMeans(c, stmts, b, e, c.lookup(st.qset));
    }
  }

  /** A quorum of PREPARING statements that stand. */
  ghost predicate RatifiedBy(c: Context, stmts: Statements, current: Value, b: Ballot, u: set<NodeID>)
  {
    QuorumOf(c, stmts, b, PREPARING, u) && forall n :: n in u ==> Stands(c, stmts, current, b, n)
  }

  /** Prepared: an own PREPARED, or PREPARED from nodes no local quorum avoids, or a quorum of
      PREPARING statements that stand. */
  lemma PreparedMeans(c: Context, stmts: Statements, current: Value, b: Ballot)
    ensures IsPrepared(c, stmts, current, b) <==>
            || Key(b, PREPARED, c.self) in stmts
            || (forall others :: HasQuorum(Local(c), others) ==> exists n :: n in others && Key(b, PREPARED, n) in stmts)
            || exists u :: RatifiedBy(c, stmts, current, b, u)
  {
    PreparedBlocks(c, stmts, b);
    RatifyingMeans(c, stmts, current, b);
    hide HasQuorum, IsVBlocking, IsQuorumTransitive, Ratifying, RatifiedBy, Voters;
  }

  lemma PreparedBlocks(c: Context, stmts: Statements, b: Ballot)
    ensures IsVBlocking(Local(c), Voters(stmts, b, PREPARED)) <==>
            forall others :: HasQuorum(Local(c), others) ==> exists n :: n in others && Key(b, PREPARED, n) in stmts
  {
    hide HasQuorum, IsVBlocking, Voters;
    UnavoidableIff(Local(c), Voters(stmts, b, PREPARED));
    AllVoted(stmts, b, PREPARED);
  }

  lemma RatifyingMeans(c: Context, stmts: Statements, current: Value, b: Ballot)
    ensures IsQuorumTransitive(Local(c), Ratifying(c, stmts, current, b)) <==> exists u :: RatifiedBy(c, stmts, current, b, u)
  {
    hide HasQuorum, IsQuorumTransitive, Voters, Ratifies, Stands;
    var votes := Ratifying(c, stmts, current, b);
    TransitiveQuorumIff(Local(c), votes);
    forall n ensures n in votes <==> Key(b, PREPARING, n) in stmts && Stands(c, stmts, current, b, n) {
      VotedIff(stmts, b, PREPARING, n);
      if Key(b, PREPARING, n) in stmts {
        RatifiesMeans(c, stmts, current, b, n);
      }
    }
    forall u ensures RatifiedBy(c, stmts, current, b, u) <==> SelfSufficient(u, votes) && HasQuorum(Local(c), u) {
    }
  }

  // ---------------------------------------------------------------- choices of ballots

  /** The prepared ballot a PREPARING names is the least own PREPARED with the current value. */
  lemma {:induction false} LeastPreparedIs(c: Context, stmts: Statements, current: Value, bs: seq<Ballot>)
    ensures var r := LeastPrepared(c, stmts, current, bs);
            && (r.Some? ==> r.value in bs && r.value.value == current && Key(r.value, PREPARED, c.self) in stmts)
            && (forall b :: b in bs && b.value == current && Key(b, PREPARED, c.self) in stmts ==>
                  r.Some? && !Less(c, b, r.value))
  {
    hide Less;
    if |bs| > 0 {
      var front, x := bs[..|bs| - 1], bs[|bs| - 1];
      LeastPreparedIs(c, stmts, current, front);
      var p := LeastPrepared(c, stmts, current, front);
      LessIrreflexive(c, x);
      forall b | b in bs && b.value == current && Key(b, PREPARED, c.self) in stmts
        ensures LeastPrepared(c, stmts, current, bs).Some? && !Less(c, b, LeastPrepared(c, stmts, current, bs).value)
      {
        if b in front && p.Some? && Less(c, x, p.value) {
          LessThan(c, x, p.value, b);
        }
      }
    }
  }

  lemma LessThan(c: Context, x: Ballot, y: Ballot, z: Ballot)
    requires Less(c, x, y) && !Less(c, z, y)
    ensures !Less(c, z, x)
  {
  }

  /** The ballot a slot moves to for a confirmed value is the largest of its own candidate and
      the ballots of that value with a COMMITTED on record. */
  lemma {:induction false} RaiseIsLargest(c: Context, stmts: Statements, b: Ballot, bs: seq<Ballot>)
    ensures var r := RaiseToCommitted(c, stmts, b, bs);
            && r.value == b.value
            && (r == b || (r in bs && exists n :: Key(r, COMMITTED, n) in stmts))
            && !Less(c, r, b)
            && forall x, n :: x in bs && x.value == b.value && Key(x, COMMITTED, n) in stmts ==> !Less(c, r, x)
  {
    hide Less, Voters;
    LessIrreflexive(c, b);
    if |bs| > 0 {
      var front, x := bs[..|bs| - 1], bs[|bs| - 1];
      RaiseIsLargest(c, stmts, b, front);
      var q, r := RaiseToCommitted(c, stmts, b, front), RaiseToCommitted(c, stmts, b, bs);
      LessIrreflexive(c, x);
      AllVoted(stmts, x, COMMITTED);
      if r != q {
        var n :| n in Voters(stmts, x, COMMITTED);
        assert Key(r, COMMITTED, n) in stmts;
        forall y | !Less(c, q, y) ensures !Less(c, r, y) {
          NotBelow(c, y, q, r);
        }
      }
    }
  }

  lemma NotBelow(c: Context, y: Ballot, q: Ballot, r: Ballot)
    requires !Less(c, q, y) && Less(c, q, r)
    ensures !Less(c, r, y)
  {
  }

  // ---------------------------------------------------------------- confirmed values

  /** `u` satisfies the local quorum set, and every member has a COMMITTED for the value on record
      whose quorum set `u` satisfies. */
  ghost predicate CommittedQuorum(c: Context, stmts: Statements, v: Value, u: set<NodeID>)
  {
    && HasQuorum(Local(c), u)
    && forall n :: n in u ==> exists b: Ballot :: CommittedFor(c, stmts, v, b, n, u)
  }

  ghost predicate CommittedFor(c: Context, stmts: Statements, v: Value, b: Ballot, n: NodeID, u: set<NodeID>)
  {
    b.value == v && Key(b, COMMITTED, n) in stmts && HasQuorum(c.lookup(stmts[Key(b, COMMITTED, n)].qset), u)
  }

  /** What the votes for a value hold, when no node has two COMMITTED on record. */
  lemma CommittedVotesMean(c: Context, stmts: Statements, v: Value, votes: map<NodeID, QuorumSet>, n: NodeID)
    requires ContextOK(c) && OneCommitted(stmts) && votes == CommittedVotes(c, stmts, v, c.order(Known(stmts)))
    ensures n in votes <==> exists b: Ballot :: b.value == v && Key(b, COMMITTED, n) in stmts
    ensures forall b: Ballot :: b.value == v && Key(b, COMMITTED, n) in stmts ==> votes[n] == c.lookup(stmts[Key(b, COMMITTED, n)].qset)
  {
    var bs := c.order(Known(stmts));
    CommittedVotesAre(c, stmts, v, bs);
    hide CommittedVotes, OneCommitted;
    forall b: Ballot | b.value == v && Key(b, COMMITTED, n) in stmts
      ensures n in votes && votes[n] == c.lookup(stmts[Key(b, COMMITTED, n)].qset)
    {
      assert Key(b, COMMITTED, n).ballot in Known(stmts);
      assert Key(b, COMMITTED, n) in CommittedKeys(stmts, v, bs);
    }
    if n in votes {
      var k :| k in CommittedKeys(stmts, v, bs) && k.node == n;
      assert k == Key(k.ballot, COMMITTED, n);
    }
  }

  /** A value is confirmed exactly when a quorum has said COMMITTED for it, at whatever ballots. */
  lemma CommittedConfirmedMeans(c: Context, stmts: Statements, v: Value)
    requires ContextOK(c) && OneCommitted(stmts)
    ensures IsCommittedConfirmed(c, stmts, v) <==> exists u :: CommittedQuorum(c, stmts, v, u)
  {
    hide HasQuorum, IsQuorumTransitive, CommittedVotes, OneCommitted, ContextOK;
    var votes := CommittedVotes(c, stmts, v, c.order(Known(stmts)));
    TransitiveQuorumIff(Local(c), votes);
    forall u ensures CommittedQuorum(c, stmts, v, u) <==> SelfSufficient(u, votes) && HasQuorum(Local(c), u) {
      forall n ensures n in votes && HasQuorum(votes[n], u) <==> exists b: Ballot :: CommittedFor(c, stmts, v, b, n, u) {
        CommittedVotesMean(c, stmts, v, votes, n);
        if n in votes {
          var b: Ballot :| b.value == v && Key(b, COMMITTED, n) in stmts;
          assert HasQuorum(votes[n], u) ==> CommittedFor(c, stmts, v, b, n, u);
        }
      }
    }
  }

  // ---------------------------------------------------------------- ballots without statements

  /** Nobody has said PREPARING or PREPARED about the ballot. */
  ghost predicate Unprepared(stmts: Statements, b: Ballot)
  {
    forall n :: Key(b, PREPARING, n) !in stmts && Key(b, PREPARED, n) !in stmts
  }

  /** Such a ballot is prepared exactly when the local threshold is zero or cannot be reached. */
  lemma UnpreparedIff(c: Context, stmts: Statements, current: Value, b: Ballot)
    requires Unprepared(stmts, b)
    ensures IsPrepared(c, stmts, current, b) <==>
            Local(c).threshold == 0 || Local(c).threshold > |Local(c).validators|
  {
    AllVoted(stmts, b, PREPARING);
    AllVoted(stmts, b, PREPARED);
    assert Voters(stmts, b, PREPARED) == {} && Ratifying(c, stmts, current, b) == map[];
    CountNone(Local(c).validators);
    if Local(c).threshold > 0 {
      NoQuorumOfNone(c);
    }
  }

  lemma UnknownIsUnprepared(stmts: Statements, b: Ballot)
    requires b !in Known(stmts)
    ensures Unprepared(stmts, b)
  {
    assert forall k :: k in stmts ==> k.ballot in Known(stmts);
  }

  /** Visiting a ballot without statements, when the local threshold can be reached, does nothing
      unless its value is confirmed. Then some known ballot has that value, and the visit does
      what following the confirmed value does and no more. */
  lemma UnknownBallotVisited(c: Context, s: Slot, b: Ballot)
    requires ContextOK(c) && Inv(c, s) && !s.crashed && !s.committed && b !in Known(s.stmts)
    requires 0 < Local(c).threshold <= |Local(c).validators|
    ensures TryBump(c, s, b) == FollowConfirmed(c, s, b.value)
    ensures TryBump(c, s, b) != s ==> exists x :: x in Known(s.stmts) && x.value == b.value
  {
    UnknownIsUnprepared(s.stmts, b);
    InvOneCommitted(c, s);
    InvIsHonest(c, s);
    hide Inv, IsPrepared, IsCommittedConfirmed, ContextOK, OneCommitted, Known, Honest, AttemptCommitted, ExternalizeBallot, MayBump;
    if IsCommittedConfirmed(c, s.stmts, b.value) {
      ConfirmedIsKnown(c, s.stmts, b.value);
      var t := BumpToBallot(c, s, ExternalizeBallot(c, s, b.value));
      if !t.crashed {
        BumpHonest(c, s, ExternalizeBallot(c, s, b.value));
        CommitEffect(c, t);
        var u := AttemptCommitted(c, t);
        assert Unprepared(u.stmts, b);
        UnpreparedIff(c, u.stmts, u.ballot.value, b);
      }
    } else {
      UnpreparedIff(c, s.stmts, s.ballot.value, b);
    }
  }

  // ---------------------------------------------------------------- what a vote rests on

  lemma QuorumOfGrows(c: Context, s: Slot, t: Slot, b: Ballot, kind: Kind, u: set<NodeID>)
    requires Grows(c, s, t) && QuorumOf(c, s.stmts, b, kind, u)
    ensures QuorumOf(c, t.stmts, b, kind, u)
  {
    hide HasQuorum;
  }

  lemma RecordedAfter(c: Context, s: Slot)
    requires ContextOK(c) && Inv(c, s) && !s.committed && !s.crashed && !s.pristine
    ensures Recorded(c, AttemptPreparing(c, s).stmts, s.ballot, PREPARING)
  {
    hide Record, Inv;
    if !Recorded(c, s.stmts, s.ballot, PREPARING) {
      RecordEffect(c, s, PreparingStatement(c, s));
    }
  }

  /** PREPARED leaves the COMMITTING statements alone. */
  lemma PreparedOnly(c: Context, s: Slot, b: Ballot)
    requires ContextOK(c) && Inv(c, s) && !s.committed && !s.crashed && !s.pristine
    ensures Recorded(c, AttemptPreparing(c, s).stmts, b, COMMITTING) ==> Recorded(c, s.stmts, b, COMMITTING)
    ensures Recorded(c, AttemptPrepared(c, s, b).stmts, b, COMMITTING) ==> Recorded(c, s.stmts, b, COMMITTING)
  {
    hide Record, Inv;
    if !Recorded(c, s.stmts, s.ballot, PREPARING) {
      RecordEffect(c, s, PreparingStatement(c, s));
    }
    if !Recorded(c, s.stmts, b, PREPARED) {
      RecordEffect(c, s, OwnStatement(c, b, PREPARED));
    }
  }

  /** Every step up rests on a quorum on record: voting says PREPARING, says COMMITTING only with
      a quorum of PREPARED, and commits only with a quorum of COMMITTING. */
  lemma VoteRestsOnQuorums(c: Context, s: Slot)
    requires ContextOK(c) && Inv(c, s) && !s.committed && !s.crashed && !s.pristine
    ensures var t, b := Vote(c, s), s.ballot;
            && Key(b, PREPARING, c.self) in t.stmts
            && (Key(b, COMMITTING, c.self) in t.stmts && Key(b, COMMITTING, c.self) !in s.stmts ==>
                  exists u :: QuorumOf(c, t.stmts, b, PREPARED, u))
            && (t.committed ==> exists u :: QuorumOf(c, t.stmts, b, COMMITTING, u))
  {
    hide AttemptPreparing, AttemptPrepared, AttemptCommitting, AttemptCommitted, Inv, Forward, QuorumOf;
    hide IsPrepared, IsPreparedConfirmed, IsCommitted;
    var t, b := Vote(c, s), s.ballot;
    VoteKeeps(c, s);
    RecordedAfter(c, s);
    PreparedOnly(c, s, b);
    PreparingKeeps(c, s);
    var s1 := AttemptPreparing(c, s);
    PreparedKeeps(c, s1, b);
    PreparedOnly(c, s1, b);
    KeepsSelf(c, s1);
    var s2 := if IsPrepared(c, s1.stmts, b.value, b) then AttemptPrepared(c, s1, b) else s1;
    if IsPreparedConfirmed(c, s2.stmts, b) {
      CommittingKeeps(c, s2);
      var s3 := AttemptCommitting(c, s2);
      CommittedKeeps(c, s3);
      KeepsSelf(c, s3);
      KeepsTransitive(c, s2, s3, t);
      PreparedConfirmedMeans(c, s2.stmts, b);
      if !Recorded(c, s.stmts, b, COMMITTING) {
        var u :| QuorumOf(c, s2.stmts, b, PREPARED, u);
        QuorumOfGrows(c, s2, t, b, PREPARED, u);
      }
      if IsCommitted(c, s3.stmts, b) {
        CommittedMeans(c, s3.stmts, b);
        OwnNotCommitted(c, s3, b);
        var u :| QuorumOf(c, s3.stmts, b, COMMITTING, u);
        QuorumOfGrows(c, s3, t, b, COMMITTING, u);
      }
    }
  }

  lemma OwnNotCommitted(c: Context, s: Slot, b: Ballot)
    requires Inv(c, s) && !s.committed
    ensures Key(b, COMMITTED, c.self) !in s.stmts
  {
  }
}
