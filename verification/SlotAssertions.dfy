/** Exactly which events make an assertion of the slot fail. */
module SlotAssertions {
  import opened Quorums
  import opened SlotModel
  import opened SlotSafety
  import opened SlotQuiet

  // ---------------------------------------------------------------- confirmation

  function CommittedKeys(stmts: Statements, v: Value, bs: seq<Ballot>): set<Key>
  {
    set k | k in stmts && k.kind == COMMITTED && k.ballot.value == v && k.ballot in bs
  }

  lemma {:induction false} CommittedVotesAre(c: Context, stmts: Statements, v: Value, bs: seq<Ballot>)
    requires OneCommitted(stmts)
    ensures CommittedVotes(c, stmts, v, bs).Keys == set k | k in CommittedKeys(stmts, v, bs) :: k.node
    ensures forall k :: k in CommittedKeys(stmts, v, bs) ==>
              CommittedVotes(c, stmts, v, bs)[k.node] == c.lookup(stmts[k].qset)
  {
    if |bs| != 0 {
      var front, b := bs[..|bs| - 1], bs[|bs| - 1];
      CommittedVotesAre(c, stmts, v, front);
      assert forall x :: x in bs <==> x in front || x == b;
      var votes := CommittedVotes(c, stmts, v, bs);
      forall k | k in CommittedKeys(stmts, v, bs)
        ensures k.node in votes && votes[k.node] == c.lookup(stmts[k].qset)
      {
        if b.value == v && k.node in Voters(stmts, b, COMMITTED) {
          assert Key(b, COMMITTED, k.node) == k;
        } else {
          assert k == Key(k.ballot, COMMITTED, k.node);
          assert k in CommittedKeys(stmts, v, front);
        }
      }
      forall n | n in votes.Keys
        ensures exists k :: k in CommittedKeys(stmts, v, bs) && k.node == n
      {
        if b.value == v && n in Voters(stmts, b, COMMITTED) {
          assert Key(b, COMMITTED, n) in CommittedKeys(stmts, v, bs);
        } else {
          var k :| k in CommittedKeys(stmts, v, front) && k.node == n;
          assert k in CommittedKeys(stmts, v, bs);
        }
      }
    }
  }

  /** Confirmation of a value depends on the COMMITTED statements for that value alone. */
  lemma ConfirmedDepends(c: Context, m: Statements, m': Statements, v: Value)
    requires ContextOK(c) && OneCommitted(m) && OneCommitted(m')
    requires forall k: Key :: k.kind == COMMITTED && k.ballot.value == v && (k in m || k in m') ==>
               k in m && k in m' && m[k] == m'[k]
    ensures IsCommittedConfirmed(c, m, v) == IsCommittedConfirmed(c, m', v)
  {
    var bs, bs' := c.order(Known(m)), c.order(Known(m'));
    CommittedVotesAre(c, m, v, bs);
    CommittedVotesAre(c, m', v, bs');
    assert CommittedKeys(m, v, bs) == CommittedKeys(m', v, bs') by {
      assert forall k :: k in m ==> k.ballot in Known(m);
      assert forall k :: k in m' ==> k.ballot in Known(m');
    }
    assert CommittedVotes(c, m, v, bs) == CommittedVotes(c, m', v, bs');
  }

  lemma NoQuorumOfNone(c: Context)
    requires Local(c).threshold > 0
    ensures !IsQuorumTransitive(Local(c), map[])
  {
    var none: map<NodeID, QuorumSet> := map[];
    assert Sustained(none.Keys, none) == {};
    CountNone(Local(c).validators);
  }

  lemma {:induction false} CountNone(vs: seq<NodeID>)
    ensures Count(vs, {}) == 0
  {
    if |vs| != 0 {
      CountNone(vs[..|vs| - 1]);
    }
  }

  /** A confirmed value has a COMMITTED statement. */
  lemma ConfirmedIsKnown(c: Context, stmts: Statements, v: Value)
    requires ContextOK(c) && OneCommitted(stmts) && Local(c).threshold > 0
    requires IsCommittedConfirmed(c, stmts, v)
    ensures exists b :: b in Known(stmts) && b.value == v
    ensures Local(c).threshold <= |Local(c).validators|
  {
    var bs := c.order(Known(stmts));
    var votes := CommittedVotes(c, stmts, v, bs);
    CommittedVotesAre(c, stmts, v, bs);
    NoQuorumOfNone(c);
    CountMonotone(Local(c).validators, Sustained(votes.Keys, votes), Sustained(votes.Keys, votes));
    assert votes != map[];
    var n :| n in votes.Keys;
    var k :| k in CommittedKeys(stmts, v, bs) && k.node == n;
    assert k.ballot in Known(stmts);
  }

  ghost predicate NothingConfirmed(c: Context, s: Slot)
  {
    forall v :: !IsCommittedConfirmed(c, s.stmts, v)
  }

  lemma RestNothingConfirmed(c: Context, s: Slot)
    requires ContextOK(c) && Resting(c, s) && !s.committed && Local(c).threshold > 0
    ensures NothingConfirmed(c, s)
  {
    hide IsCommittedConfirmed, IsPrepared, HearsQuorum, QuietVote, Known;
    forall v ensures !IsCommittedConfirmed(c, s.stmts, v) {
      if IsCommittedConfirmed(c, s.stmts, v) {
        ConfirmedIsKnown(c, s.stmts, v);
      }
    }
  }

  // ---------------------------------------------------------------- ballots in reach

  /** Ballots that other nodes report as prepared are not above the current one. */
  ghost predicate PreparedBelow(c: Context, s: Slot)
  {
    forall b :: Recorded(c, s.stmts, b, PREPARED) || (b in Known(s.stmts) && IsVBlocking(Local(c), Voters(s.stmts, b, PREPARED))) ==>
      !Less(c, s.ballot, b)
  }

  /** Moving to a confirmed value would wrap the ballot counter. */
  predicate Wraps(c: Context, b: Ballot, v: Value)
  {
    b.counter == MAX_COUNTER && Less(c, Ballot(MAX_COUNTER, v), b)
  }

  ghost predicate Roomy(c: Context, s: Slot)
  {
    forall v :: IsCommittedConfirmed(c, s.stmts, v) ==> !Wraps(c, s.ballot, v)
  }

  ghost predicate Safe(c: Context, s: Slot)
  {
    s.committed || NothingConfirmed(c, s) || (PreparedBelow(c, s) && Roomy(c, s))
  }

  /** Two records that differ in COMMITTED statements only. */
  ghost predicate SameButCommitted(m: Statements, m': Statements)
  {
    && (forall k :: k in m && k.kind != COMMITTED ==> k in m' && m'[k] == m[k])
    && (forall k :: k in m' && k.kind != COMMITTED ==> k in m)
  }

  lemma SameVoters(m: Statements, m': Statements, b: Ballot, kind: Kind)
    requires SameButCommitted(m, m') && kind != COMMITTED
    ensures Voters(m, b, kind) == Voters(m', b, kind)
  {
    forall n | n in Voters(m, b, kind) ensures n in Voters(m', b, kind) {
      assert Key(b, kind, n) in m';
    }
    forall n | n in Voters(m', b, kind) ensures n in Voters(m, b, kind) {
      assert Key(b, kind, n) in m;
    }
  }

  /** With a positive threshold a prepared ballot above the current one was reported by others. */
  lemma PreparedIsBelow(c: Context, s: Slot, stmts: Statements, current: Value, b: Ballot)
    requires ContextOK(c) && Inv(c, s) && Local(c).threshold > 0
    requires PreparedBelow(c, s) && b in Known(s.stmts)
    requires SameButCommitted(s.stmts, stmts)
    requires IsPrepared(c, stmts, current, b)
    ensures !Less(c, s.ballot, b)
  {
    SameVoters(s.stmts, stmts, b, PREPARED);
    SameVoters(s.stmts, stmts, b, PREPARING);
    if !Recorded(c, stmts, b, PREPARED) && !IsVBlocking(Local(c), Voters(stmts, b, PREPARED)) {
      NoQuorumOfNone(c);
      assert Ratifying(c, stmts, current, b) != map[];
      var n :| n in Ratifying(c, stmts, current, b).Keys;
      assert n in Voters(s.stmts, b, PREPARING);
    }
  }

  lemma {:induction false} RaiseOnlyRaises(c: Context, stmts: Statements, b: Ballot, bs: seq<Ballot>)
    ensures !Less(c, RaiseToCommitted(c, stmts, b, bs), b)
  {
    if |bs| != 0 {
      RaiseOnlyRaises(c, stmts, b, bs[..|bs| - 1]);
    }
  }

  lemma {:induction false} RaiseKeepsValue(c: Context, stmts: Statements, b: Ballot, bs: seq<Ballot>)
    ensures RaiseToCommitted(c, stmts, b, bs).value == b.value
  {
    if |bs| != 0 {
      RaiseKeepsValue(c, stmts, b, bs[..|bs| - 1]);
    }
  }

  /** The ballot chosen to follow a confirmed value is below the current one exactly on wrap-around. */
  lemma ExternalizeBallotBelowIff(c: Context, s: Slot, v: Value)
    ensures Less(c, ExternalizeBallot(c, s, v), s.ballot) <==> Wraps(c, s.ballot, v)
  {
    var b := Ballot(s.ballot.counter, v);
    var b' := if Less(c, b, s.ballot) then Ballot(Next(b.counter), v) else b;
    var r := RaiseToCommitted(c, s.stmts, b', c.order(Known(s.stmts)));
    RaiseOnlyRaises(c, s.stmts, b', c.order(Known(s.stmts)));
    RaiseKeepsValue(c, s.stmts, b', c.order(Known(s.stmts)));
  }

  lemma MayBumpUp(c: Context, s: Slot, b: Ballot)
    requires Inv(c, s) && !s.committed
    requires s.pristine || !Less(c, b, s.ballot)
    ensures MayBump(c, s, b)
  {
  }

  // ---------------------------------------------------------------- rounds without failure

  lemma OwnStoreSafe(c: Context, s: Slot, t: Slot, st: Statement)
    requires ContextOK(c) && Inv(c, s) && Inv(c, t) && Safe(c, s)
    requires st.kind != COMMITTED && t.stmts == s.stmts[Key(st.ballot, st.kind, c.self) := st]
    requires t.ballot == s.ballot && t.committed == s.committed
    requires st.kind == PREPARED ==> !Less(c, s.ballot, st.ballot)
    requires st.kind == PREPARING ==> st.ballot == s.ballot
    requires st.ballot in Known(s.stmts) || st.ballot == s.ballot
    ensures Safe(c, t)
    ensures forall v :: IsCommittedConfirmed(c, t.stmts, v) == IsCommittedConfirmed(c, s.stmts, v)
  {
    hide IsCommittedConfirmed;
    forall v ensures IsCommittedConfirmed(c, t.stmts, v) == IsCommittedConfirmed(c, s.stmts, v) {
      ConfirmedDepends(c, s.stmts, t.stmts, v);
    }
    if PreparedBelow(c, s) {
      PreparedBelowAfter(c, s, t, st);
    }
  }

  lemma PreparedBelowAfter(c: Context, s: Slot, t: Slot, st: Statement)
    requires PreparedBelow(c, s) && t.stmts == s.stmts[Key(st.ballot, st.kind, c.self) := st] && t.ballot == s.ballot
    requires st.kind == PREPARED ==> !Less(c, s.ballot, st.ballot)
    requires st.ballot in Known(s.stmts) || st.ballot == s.ballot
    ensures PreparedBelow(c, t)
  {
    LessIrreflexive(c, s.ballot);
    hide Less, IsVBlocking;
    KnownAfterStore(s, c.self, st);
    assert Store(s, c.self, st).stmts == t.stmts;
    forall b | Recorded(c, t.stmts, b, PREPARED) || (b in Known(t.stmts) && IsVBlocking(Local(c), Voters(t.stmts, b, PREPARED)))
      ensures !Less(c, t.ballot, b)
    {
      if b != st.ballot || st.kind != PREPARED {
        assert Voters(t.stmts, b, PREPARED) == Voters(s.stmts, b, PREPARED);
      }
    }
  }

  lemma PreparedSafe(c: Context, s: Slot, b: Ballot)
    requires ContextOK(c) && Inv(c, s) && !s.committed && !s.crashed && Safe(c, s)
    requires !Less(c, s.ballot, b) && (b in Known(s.stmts) || b == s.ballot)
    ensures var t := AttemptPrepared(c, s, b);
            Safe(c, t) && (forall v :: IsCommittedConfirmed(c, t.stmts, v) == IsCommittedConfirmed(c, s.stmts, v))
  {
    hide Record, Inv, Safe, IsCommittedConfirmed, Keeps;
    PreparedKeeps(c, s, b);
    InvOfKeeps(c, s, AttemptPrepared(c, s, b));
    if !Recorded(c, s.stmts, b, PREPARED) {
      RecordEffect(c, s, OwnStatement(c, b, PREPARED));
      OwnStoreSafe(c, s, AttemptPrepared(c, s, b), OwnStatement(c, b, PREPARED));
    }
  }

  lemma InvOfKeeps(c: Context, s: Slot, t: Slot)
    requires Keeps(c, s, t)
    ensures Inv(c, t)
  {
  }

  lemma VoteSafe(c: Context, s: Slot)
    requires ContextOK(c) && Inv(c, s) && !s.committed && !s.crashed && !s.pristine && Safe(c, s)
    ensures Safe(c, Vote(c, s))
  {
    hide Record, Inv, Safe, IsCommittedConfirmed, Keeps, AttemptPrepared, AttemptCommitted;
    hide IsPrepared, IsPreparedConfirmed, IsCommitted, LeastPrepared, Contradicted;
    PreparingKeeps(c, s);
    var s1 := AttemptPreparing(c, s);
    InvOfKeeps(c, s, s1);
    if !Recorded(c, s.stmts, s.ballot, PREPARING) {
      RecordEffect(c, s, PreparingStatement(c, s));
      OwnStoreSafe(c, s, s1, PreparingStatement(c, s));
    }
    PreparedKeeps(c, s1, s1.ballot);
    PreparedSafe(c, s1, s1.ballot);
    KeepsSelf(c, s1);
    var s2 := if IsPrepared(c, s1.stmts, s1.ballot.value, s1.ballot) then AttemptPrepared(c, s1, s1.ballot) else s1;
    InvOfKeeps(c, s1, s2);
    CommittingKeeps(c, s2);
    var s3 := AttemptCommitting(c, s2);
    InvOfKeeps(c, s2, s3);
    if !Recorded(c, s2.stmts, s2.ballot, COMMITTING) {
      RecordEffect(c, s2, OwnStatement(c, s2.ballot, COMMITTING));
      if s3 != s2 {
        OwnStoreSafe(c, s2, s3, OwnStatement(c, s2.ballot, COMMITTING));
      }
    }
    CommittedKeeps(c, s3);
    CommittedSafe(c, AttemptCommitted(c, s3));
  }

  lemma CommittedSafe(c: Context, s: Slot)
    requires s.committed
    ensures Safe(c, s)
  {
  }

  /** Moving to a prepared ballot while nothing is confirmed. */
  lemma FollowPreparedUnconfirmed(c: Context, s: Slot, b: Ballot)
    requires ContextOK(c) && Inv(c, s) && !s.committed && !s.crashed && NothingConfirmed(c, s) && b in Known(s.stmts)
    ensures var t := FollowPrepared(c, s, b); !t.crashed && Safe(c, t) && Inv(c, t)
  {
    hide IsPrepared, IsCommittedConfirmed, Inv, AttemptPrepared, Keeps;
    FollowPreparedKeeps(c, s, b);
    InvOfKeeps(c, s, FollowPrepared(c, s, b));
    if Less(c, s.ballot, b) {
      MayBumpUp(c, s, b);
    } else {
      PreparedSafe(c, s, b);
      PreparedKeeps(c, s, b);
    }
  }

  /** The iteration that commits: the ballot under examination is not above the new one. */
  lemma FollowConfirmedSafe(c: Context, s: Slot, b: Ballot)
    requires ContextOK(c) && Inv(c, s) && !s.committed && !s.crashed && Local(c).threshold > 0
    requires PreparedBelow(c, s) && b in Known(s.stmts)
    requires IsCommittedConfirmed(c, s.stmts, b.value) && !Wraps(c, s.ballot, b.value)
    ensures var t := TryBump(c, s, b); !t.crashed && t.committed
  {
    hide IsPrepared, IsCommittedConfirmed, Inv, AttemptPrepared, AttemptCommitted, ExternalizeBallot, Honest;
    var bx := ExternalizeBallot(c, s, b.value);
    ExternalizeBallotBelowIff(c, s, b.value);
    MayBumpUp(c, s, bx);
    var t := BumpToBallot(c, s, bx);
    BumpKeeps(c, s, bx);
    InvIsHonest(c, t);
    CommitEffect(c, t);
    CommittedKeeps(c, t);
    var u := AttemptCommitted(c, t);
    assert u.stmts == s.stmts[Key(bx, COMMITTED, c.self) := OwnStatement(c, bx, COMMITTED)];
    if IsPrepared(c, u.stmts, u.ballot.value, b) {
      PreparedIsBelow(c, s, u.stmts, u.ballot.value, b);
      assert !Less(c, bx, b);
      PreparedAfterCommitKeeps(c, u, b);
    }
  }

  lemma TryBumpSafe(c: Context, s: Slot, b: Ballot)
    requires ContextOK(c) && Inv(c, s) && !s.committed && !s.crashed && Safe(c, s) && Local(c).threshold > 0
    requires b in Known(s.stmts)
    ensures var t := TryBump(c, s, b); !t.crashed && Safe(c, t) && Inv(c, t)
  {
    hide IsPrepared, IsCommittedConfirmed, Inv, AttemptPrepared, Keeps, PreparedBelow, ExternalizeBallot;
    TryBumpKeeps(c, s, b);
    InvOfKeeps(c, s, TryBump(c, s, b));
    if NothingConfirmed(c, s) {
      FollowPreparedUnconfirmed(c, s, b);
    } else if IsCommittedConfirmed(c, s.stmts, b.value) {
      FollowConfirmedSafe(c, s, b);
    } else if IsPrepared(c, s.stmts, s.ballot.value, b) {
      PreparedIsBelow(c, s, s.stmts, s.ballot.value, b);
      PreparedSafe(c, s, b);
      PreparedKeeps(c, s, b);
    }
  }

  lemma {:induction false} TryBumpsSafe(c: Context, s: Slot, bs: seq<Ballot>)
    requires ContextOK(c) && Inv(c, s) && !s.crashed && Safe(c, s) && Local(c).threshold > 0
    requires forall b :: b in bs ==> b in Known(s.stmts)
    ensures var t := TryBumps(c, s, bs); !t.crashed && Safe(c, t)
    decreases |bs|
  {
    hide TryBump, Inv, Safe, Honest, Progress;
    if |bs| != 0 && !s.committed && !s.externalized {
      TryBumpSafe(c, s, bs[0]);
      InvIsHonest(c, s);
      TryBumpProgress(c, s, bs[0]);
      var t := TryBump(c, s, bs[0]);
      if !t.committed {
        assert forall b :: b in bs[1..] ==> b in bs;
        TryBumpsSafe(c, t, bs[1..]);
      }
    }
  }

  lemma PassSafe(c: Context, s: Slot)
    requires ContextOK(c) && Inv(c, s) && !s.crashed && Safe(c, s) && Local(c).threshold > 0
    ensures var p := Pass(c, s); !p.crashed && Safe(c, p)
  {
    hide Vote, TryBumps, Inv, IsCommittedConfirmed, HearsQuorum;
    DecideKeeps(c, s);
    InvExternalized(c, s);
    if !s.committed && !s.pristine {
      VoteSafe(c, s);
    }
    var s1 := Decide(c, s);
    InvOfKeeps(c, s, s1);
    TryBumpsSafe(c, s1, c.order(Known(s1.stmts)));
    SafeIgnoresFlags(c, TryBumps(c, s1, c.order(Known(s1.stmts))), Pass(c, s));
  }

  lemma SafeIgnoresFlags(c: Context, s: Slot, t: Slot)
    requires t == s.(heard := t.heard, again := t.again) && Safe(c, s)
    ensures Safe(c, t)
  {
    hide IsCommittedConfirmed;
  }

  lemma {:induction false} AdvanceSafe(c: Context, s: Slot)
    requires ContextOK(c) && Inv(c, s) && Honest(c, s) && !s.crashed && !s.again && Safe(c, s) && Local(c).threshold > 0
    ensures !Advance(c, s).crashed
    decreases Measure(c, s)
  {
    hide Pass, Inv, Measure, Honest, Safe;
    PassSafe(c, s);
    var p := Pass(c, s);
    if p.again {
      var q := p.(again := false);
      PassProgress(c, s);
      MeasureIgnoresFlags(c, p, q);
      PassKeeps(c, s);
      InvExternalized(c, p);
      KeepsFlags(c, p, q);
      SafeIgnoresFlags(c, p, q);
      AdvanceSafe(c, q);
    }
  }

  // ---------------------------------------------------------------- which events fail

  /** Storing a statement of another kind confirms nothing. */
  lemma OtherKindUnconfirmed(c: Context, s: Slot, t: Slot)
    requires ContextOK(c) && OneCommitted(s.stmts) && OneCommitted(t.stmts) && NothingConfirmed(c, s)
    requires forall k: Key :: k.kind == COMMITTED && (k in s.stmts || k in t.stmts) ==>
               k in s.stmts && k in t.stmts && s.stmts[k] == t.stmts[k]
    ensures NothingConfirmed(c, t)
  {
    hide IsCommittedConfirmed;
    forall v ensures !IsCommittedConfirmed(c, t.stmts, v) {
      ConfirmedDepends(c, s.stmts, t.stmts, v);
    }
  }

  /** A new COMMITTED confirms at most its own value. */
  lemma CommittedConfirmsItsValue(c: Context, s: Slot, n: NodeID, st: Statement)
    requires ContextOK(c) && Inv(c, s) && NothingConfirmed(c, s)
    requires st.kind == COMMITTED && !HasCommitted(s.stmts, n) && n != c.self
    ensures forall v :: IsCommittedConfirmed(c, Store(s, n, st).stmts, v) ==> v == st.ballot.value
  {
    hide IsCommittedConfirmed;
    ForeignStoreInv(c, s, n, st);
    forall v | v != st.ballot.value ensures !IsCommittedConfirmed(c, Store(s, n, st).stmts, v) {
      ConfirmedDepends(c, s.stmts, Store(s, n, st).stmts, v);
    }
  }

  /** After a COMMITTED from another node, what was prepared before is still below. */
  lemma CommittedKeepsPreparedBelow(c: Context, s: Slot, n: NodeID, st: Statement)
    requires ContextOK(c) && Resting(c, s) && !s.committed && n != c.self && st.kind == COMMITTED
    requires Local(c).threshold <= |Local(c).validators|
    ensures PreparedBelow(c, Store(s, n, st))
  {
    hide IsCommittedConfirmed, HearsQuorum, QuietVote, Inv;
    var t := Store(s, n, st);
    KnownAfterStore(s, n, st);
    forall b | Recorded(c, t.stmts, b, PREPARED) || (b in Known(t.stmts) && IsVBlocking(Local(c), Voters(t.stmts, b, PREPARED)))
      ensures !Less(c, t.ballot, b)
    {
      SameVoters(s.stmts, t.stmts, b, PREPARED);
      if b in Known(s.stmts) {
        assert QuietBallot(c, s, b);
      } else {
        assert Voters(s.stmts, b, PREPARED) == {};
        CountNone(Local(c).validators);
      }
    }
  }

  lemma {:induction false} TryBumpsWrap(c: Context, s: Slot, bs: seq<Ballot>, v: Value)
    requires Inv(c, s) && !s.committed && !s.externalized && !s.crashed && !s.again && !s.pristine && Wraps(c, s.ballot, v)
    requires IsCommittedConfirmed(c, s.stmts, v)
    requires forall b :: b in bs ==> (b.value != v ==> QuietBallot(c, s, b))
    requires exists b :: b in bs && b.value == v
    requires ContextOK(c)
    ensures TryBumps(c, s, bs).crashed
    decreases |bs|
  {
    hide Inv, Honest, IsCommittedConfirmed, ExternalizeBallot, QuietBallot;
    if bs[0].value == v {
      ExternalizeBallotBelowIff(c, s, v);
    } else {
      InvIsHonest(c, s);
      TryBumpRests(c, s, bs[0]);
      assert exists b :: b in bs[1..] && b.value == v by {
        var b :| b in bs && b.value == v;
        assert b in bs[1..];
      }
      TryBumpsWrap(c, s, bs[1..], v);
    }
  }

  /** A COMMITTED leaves the votes on the current ballot where they were. */
  lemma CommittedKeepsQuietVote(c: Context, s: Slot, n: NodeID, st: Statement)
    requires n != c.self && st.kind == COMMITTED && QuietVote(c, s)
    ensures QuietVote(c, Store(s, n, st))
    ensures forall b :: IsPrepared(c, Store(s, n, st).stmts, s.ballot.value, b) == IsPrepared(c, s.stmts, s.ballot.value, b)
  {
    hide IsPrepared, IsQuorumTransitive, Contradicted;
    var m, m' := s.stmts, Store(s, n, st).stmts;
    forall b ensures IsPrepared(c, m', s.ballot.value, b) == IsPrepared(c, m, s.ballot.value, b) {
      SamePrepared(c, m, m', s.ballot.value, b);
    }
    SameVotes(c, m, m', s.ballot, PREPARED);
    SameVotes(c, m, m', s.ballot, COMMITTING);
    SameContradictions(c, m, m', c.self, s.ballot);
  }

  lemma SameVotes(c: Context, m: Statements, m': Statements, b: Ballot, kind: Kind)
    requires SameButCommitted(m, m') && kind != COMMITTED
    ensures Votes(c, m, b, kind) == Votes(c, m', b, kind)
  {
    SameVoters(m, m', b, kind);
  }

  lemma SameContradictions(c: Context, m: Statements, m': Statements, n: NodeID, b: Ballot)
    requires SameButCommitted(m, m')
    ensures Contradicted(c, m, n, b) == Contradicted(c, m', n, b)
  {
  }

  lemma SamePrepared(c: Context, m: Statements, m': Statements, current: Value, b: Ballot)
    requires SameButCommitted(m, m')
    ensures IsPrepared(c, m, current, b) == IsPrepared(c, m', current, b)
  {
    SameVoters(m, m', b, PREPARED);
    SameVoters(m, m', b, PREPARING);
    forall e ensures Aborting(c, m, b, e) == Aborting(c, m', b, e) {
    }
    assert Ratifying(c, m, current, b) == Ratifying(c, m', current, b);
  }

  /** The first round after a COMMITTED that confirms a value the ballot counter has no room for. */
  lemma WrapCrashes(c: Context, s: Slot, n: NodeID, st: Statement)
    requires ContextOK(c) && Resting(c, s) && !s.committed && n != c.self && Local(c).threshold > 0
    requires st.kind == COMMITTED && !HasCommitted(s.stmts, n)
    requires Wraps(c, s.ballot, st.ballot.value)
    requires IsCommittedConfirmed(c, Store(s, n, st).stmts, st.ballot.value)
    ensures Pass(c, Store(s, n, st)).crashed
  {
    hide IsCommittedConfirmed, Inv, Honest, HearsQuorum, IsPrepared, Vote, QuietVote, HasCommitted;
    var t, v := Store(s, n, st), st.ballot.value;
    PristineHasRoom(c, s, v);
    RestNothingConfirmed(c, s);
    CommittedConfirmsItsValue(c, s, n, st);
    CommittedKeepsQuietVote(c, s, n, st);
    ForeignStoreInv(c, s, n, st);
    InvIsHonest(c, t);
    InvExternalized(c, t);
    VoteRests(c, t);
    KnownAfterStore(s, n, st);
    var bs := c.order(Known(t.stmts));
    forall b | b in bs && b.value != v ensures QuietBallot(c, t, b) {
      assert b in Known(s.stmts);
      assert QuietBallot(c, s, b);
    }
    assert st.ballot in bs;
    TryBumpsWrap(c, t, bs, v);
  }

  lemma PristineHasRoom(c: Context, s: Slot, v: Value)
    requires Inv(c, s)
    ensures s.pristine ==> !Wraps(c, s.ballot, v)
  {
  }

  /** The one kind of envelope that makes an assertion fail: a COMMITTED that confirms a value
      which the largest ballot counter cannot move up to. */
  predicate FatalEnvelope(c: Context, s: Slot, env: Envelope)
  {
    var st := env.statement;
    && !s.committed
    && st.kind == COMMITTED
    && c.validValue(env.node, st.ballot.value)
    && !HasCommitted(s.stmts, env.node)
    && Wraps(c, s.ballot, st.ballot.value)
    && IsCommittedConfirmed(c, Store(s, env.node, st).stmts, st.ballot.value)
  }

  /** With a positive threshold, an envelope makes an assertion fail exactly when it is fatal;
      an own envelope that comes back never is. */
  lemma DeliverFailsIff(c: Context, s: Slot, env: Envelope)
    requires ContextOK(c) && Resting(c, s) && Honest(c, s) && Local(c).threshold > 0 && Genuine(c, s, env)
    ensures Deliver(c, s, env).slot.crashed <==> FatalEnvelope(c, s, env)
    ensures env.node == c.self ==> !FatalEnvelope(c, s, env)
  {
    hide Inv, Honest, Quiet, IsCommittedConfirmed, HasCommitted, Contradicted, Deliver;
    if env.node == c.self {
      if !s.committed {
        NotYetCommitted(c, s, env);
      }
      OwnEchoSucceeds(c, s, env);
    } else {
      ForeignFailsIff(c, s, env);
    }
  }

  /** Hearing an own statement again never fails. */
  lemma OwnEchoSucceeds(c: Context, s: Slot, env: Envelope)
    requires ContextOK(c) && Resting(c, s) && Honest(c, s) && Local(c).threshold > 0
    requires env.node == c.self && env in s.emitted
    ensures !Deliver(c, s, env).slot.crashed
  {
    hide Accept, Inv, Quiet, Honest, IsCommittedConfirmed, HasCommitted, Contradicted, Advance, MayBump;
    AcceptInv(c, s, env);
    AcceptHonest(c, s, env);
    AcceptEffect(c, s, env);
    SentFacts(c, s, env);
    var o := Accept(c, s, env);
    if s.committed {
      if o.stored {
        CommittedSafe(c, o.slot);
        AdvanceSafe(c, o.slot);
      }
    } else {
      NotYetCommitted(c, s, env);
      RestNothingConfirmed(c, s);
      DeliverOtherSafe(c, s, env);
      if o.stored {
        AdvanceSafe(c, o.slot);
      }
    }
  }

  lemma NotYetCommitted(c: Context, s: Slot, env: Envelope)
    requires Honest(c, s) && !s.committed && env in s.emitted
    ensures env.statement.kind != COMMITTED
  {
  }

  lemma ForeignFailsIff(c: Context, s: Slot, env: Envelope)
    requires ContextOK(c) && Resting(c, s) && Honest(c, s) && Local(c).threshold > 0 && env.node != c.self
    ensures Deliver(c, s, env).slot.crashed <==> FatalEnvelope(c, s, env)
  {
    hide Inv, Honest, Quiet, IsCommittedConfirmed, HasCommitted, Contradicted, Advance, Pass;
    var st, n := env.statement, env.node;
    var o := Accept(c, s, env);
    InvExternalized(c, s);
    AcceptInv(c, s, env);
    AcceptHonest(c, s, env);
    if s.committed {
      if o.stored {
        CommittedSafe(c, o.slot);
        AdvanceSafe(c, o.slot);
      }
    } else {
      RestNothingConfirmed(c, s);
      if st.kind != COMMITTED {
        DeliverOtherSafe(c, s, env);
        if o.stored {
          AdvanceSafe(c, o.slot);
        }
      } else if o.stored {
        CommittedConfirmsItsValue(c, s, n, st);
        if FatalEnvelope(c, s, env) {
          WrapCrashes(c, s, n, st);
          AdvanceStops(c, o.slot);
        } else {
          if IsCommittedConfirmed(c, o.slot.stmts, st.ballot.value) {
            InvOneCommitted(c, o.slot);
            ConfirmedIsKnown(c, o.slot.stmts, st.ballot.value);
            CommittedKeepsPreparedBelow(c, s, n, st);
          }
          AdvanceSafe(c, o.slot);
        }
      }
    }
  }

  lemma InvOneCommitted(c: Context, s: Slot)
    requires Inv(c, s)
    ensures OneCommitted(s.stmts)
  {
  }

  lemma AdvanceStops(c: Context, s: Slot)
    requires ContextOK(c) && Honest(c, s) && !s.crashed && !s.again && Pass(c, s).crashed
    ensures Advance(c, s).crashed
  {
    hide Pass, Honest;
  }

  lemma DeliverOtherSafe(c: Context, s: Slot, env: Envelope)
    requires ContextOK(c) && Inv(c, s) && !s.crashed && !s.again && !s.committed && Genuine(c, s, env)
    requires env.statement.kind != COMMITTED && NothingConfirmed(c, s)
    ensures var o := Accept(c, s, env); !o.slot.crashed && (o.stored ==> Safe(c, o.slot))
  {
    hide Accept, IsCommittedConfirmed, MayBump, Inv;
    AcceptEffect(c, s, env);
    AcceptInv(c, s, env);
    var o, b := Accept(c, s, env), env.statement.ballot;
    if s.pristine || Less(c, s.ballot, b) {
      MayBumpUp(c, s, b);
    }
    if o.stored {
      InvOneCommitted(c, s);
      InvOneCommitted(c, o.slot);
      OtherKindUnconfirmed(c, s, o.slot);
    }
  }

  /** With a positive threshold, a proposal makes an assertion fail exactly when it has to
      increment the largest counter. */
  lemma ProposeFailsIff(c: Context, s: Slot, v: Value, force: bool)
    requires ContextOK(c) && Resting(c, s) && Honest(c, s) && Local(c).threshold > 0
    ensures Propose(c, s, v, force).crashed <==>
            !s.committed && s.ballot.counter == MAX_COUNTER && (force || Less(c, Ballot(MAX_COUNTER, v), s.ballot))
  {
    hide Honest, Quiet, IsCommittedConfirmed, Advance;
    if !s.committed {
      var b := ProposedBallot(c, s, v, force);
      BumpKeeps(c, s, b);
      var t := BumpToBallot(c, s, b);
      if !t.crashed {
        RestNothingConfirmed(c, s);
        BumpHonest(c, s, b);
        AdvanceSafe(c, t);
      } else if s.pristine || !Less(c, b, s.ballot) {
        MayBumpUp(c, s, b);
      }
    }
  }
}
