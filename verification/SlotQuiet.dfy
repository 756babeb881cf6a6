/** Where the advancement of a slot comes to rest, and that a slot at rest stays as it is. */
module SlotQuiet {
  import opened SlotModel
  import opened SlotSafety

  // ---------------------------------------------------------------- rest

  /** Nothing is left to say about the current ballot. */
  ghost predicate QuietVote(c: Context, s: Slot)
  {
    && Recorded(c, s.stmts, s.ballot, PREPARING)
    && (IsPrepared(c, s.stmts, s.ballot.value, s.ballot) ==> Recorded(c, s.stmts, s.ballot, PREPARED))
    && (IsPreparedConfirmed(c, s.stmts, s.ballot) ==>
          && (Recorded(c, s.stmts, s.ballot, COMMITTING)
              || Contradicted(c, s.stmts, c.self, s.ballot)
              || !Recorded(c, s.stmts, s.ballot, PREPARED))
          && !IsCommitted(c, s.stmts, s.ballot))
  }

  /** A known ballot gives no reason to move or to speak. */
  ghost predicate QuietBallot(c: Context, s: Slot, b: Ballot)
  {
    && !IsCommittedConfirmed(c, s.stmts, b.value)
    && (IsPrepared(c, s.stmts, s.ballot.value, b) ==>
          !Less(c, s.ballot, b) && Recorded(c, s.stmts, b, PREPARED))
  }

  ghost predicate Quiet(c: Context, s: Slot)
  {
    && (!s.pristine && !s.committed ==> QuietVote(c, s))
    && (s.committed && IsCommittedConfirmed(c, s.stmts, s.ballot.value) ==> s.externalized)
    && (!s.committed ==> forall b :: b in Known(s.stmts) ==> QuietBallot(c, s, b))
    && (s.heard || !HearsQuorum(c, s))
  }

  /** What holds of a slot between two events. */
  ghost predicate Resting(c: Context, s: Slot)
  {
    Inv(c, s) && Quiet(c, s) && !s.again && !s.crashed
  }

  lemma InitialResting(c: Context)
    ensures Resting(c, Initial(c))
  {
    InitialInv(c);
  }

  lemma VoteRests(c: Context, s: Slot)
    requires ContextOK(c) && Honest(c, s) && !s.committed && !s.crashed && !s.pristine && !s.again
    ensures !Vote(c, s).again <==> QuietVote(c, s)
    ensures QuietVote(c, s) ==> Vote(c, s) == s
  {
    hide Record, IsPrepared, IsPreparedConfirmed, IsCommitted, Contradicted, Honest, AttemptCommitted, LeastPrepared;
    VoteKeepsAsking(c, s);
    RecordEffect(c, s, PreparingStatement(c, s));
    if Recorded(c, s.stmts, s.ballot, PREPARING) {
      RecordEffect(c, s, OwnStatement(c, s.ballot, PREPARED));
      if !IsPrepared(c, s.stmts, s.ballot.value, s.ballot) || Recorded(c, s.stmts, s.ballot, PREPARED) {
        RecordEffect(c, s, OwnStatement(c, s.ballot, COMMITTING));
        CommitEffect(c, s);
        assert IsPreparedConfirmed(c, s.stmts, s.ballot) && AttemptCommitting(c, s) == s && IsCommitted(c, s.stmts, s.ballot)
          ==> Vote(c, s) == AttemptCommitted(c, s);
      }
    }
  }

  lemma RecordKeepsAsking(c: Context, s: Slot, st: Statement)
    requires s.again
    ensures Record(c, s, st).again
  {
    hide Contradicted, HasCommitted;
  }

  lemma VoteKeepsAsking(c: Context, s: Slot)
    ensures AttemptPreparing(c, s).again ==> Vote(c, s).again
    ensures var s1 := AttemptPreparing(c, s);
            IsPrepared(c, s1.stmts, s1.ballot.value, s1.ballot) && AttemptPrepared(c, s1, s1.ballot).again ==> Vote(c, s).again
    ensures var s1 := AttemptPreparing(c, s);
            var s2 := if IsPrepared(c, s1.stmts, s1.ballot.value, s1.ballot) then AttemptPrepared(c, s1, s1.ballot) else s1;
            IsPreparedConfirmed(c, s2.stmts, s2.ballot) && AttemptCommitting(c, s2).again ==> Vote(c, s).again
  {
    hide Record, IsPrepared, IsPreparedConfirmed, IsCommitted, PreparingStatement;
    var s1 := AttemptPreparing(c, s);
    var s2 := if IsPrepared(c, s1.stmts, s1.ballot.value, s1.ballot) then AttemptPrepared(c, s1, s1.ballot) else s1;
    var s3 := AttemptCommitting(c, s2);
    if s1.again { RecordKeepsAsking(c, s1, OwnStatement(c, s1.ballot, PREPARED)); }
    if s2.again { RecordKeepsAsking(c, s2, OwnStatement(c, s2.ballot, COMMITTING)); }
    if s3.again { RecordKeepsAsking(c, s3.(committed := true), OwnStatement(c, s3.ballot, COMMITTED)); }
  }

  lemma TryBumpRests(c: Context, s: Slot, b: Ballot)
    requires ContextOK(c) && Honest(c, s) && !s.committed && !s.crashed && !s.again
    ensures var t := TryBump(c, s, b);
            t.crashed || (!t.again <==> QuietBallot(c, s, b))
    ensures QuietBallot(c, s, b) ==> TryBump(c, s, b) == s
  {
    hide Record, IsPrepared, IsCommittedConfirmed, ExternalizeBallot, Honest, AttemptCommitted;
    if IsCommittedConfirmed(c, s.stmts, b.value) {
      var t := BumpToBallot(c, s, ExternalizeBallot(c, s, b.value));
      if !t.crashed {
        BumpHonest(c, s, ExternalizeBallot(c, s, b.value));
        CommitEffect(c, t);
        var u := AttemptCommitted(c, t);
        RecordKeepsAsking(c, u, OwnStatement(c, b, PREPARED));
      }
    } else {
      RecordEffect(c, s, OwnStatement(c, b, PREPARED));
    }
  }

  lemma BumpHonest(c: Context, s: Slot, b: Ballot)
    requires Honest(c, s)
    ensures Honest(c, BumpToBallot(c, s, b))
  {
  }

  lemma TryBumpKeepsAsking(c: Context, s: Slot, b: Ballot)
    requires s.again
    ensures TryBump(c, s, b).again
  {
    hide Record, IsPrepared, IsCommittedConfirmed, ExternalizeBallot;
    var t := BumpToBallot(c, s, ExternalizeBallot(c, s, b.value));
    RecordKeepsAsking(c, t.(committed := true), OwnStatement(c, t.ballot, COMMITTED));
    RecordKeepsAsking(c, FollowConfirmed(c, s, b.value), OwnStatement(c, b, PREPARED));
  }

  lemma {:induction false} TryBumpsKeepAsking(c: Context, s: Slot, bs: seq<Ballot>)
    requires s.again
    ensures TryBumps(c, s, bs).again
    decreases |bs|
  {
    hide TryBump;
    if |bs| != 0 && !s.committed && !s.externalized && !s.crashed {
      TryBumpKeepsAsking(c, s, bs[0]);
      TryBumpsKeepAsking(c, TryBump(c, s, bs[0]), bs[1..]);
    }
  }

  lemma {:induction false} TryBumpsRest(c: Context, s: Slot, bs: seq<Ballot>)
    requires ContextOK(c) && Honest(c, s) && !s.committed && !s.externalized && !s.crashed && !s.again
    ensures var t := TryBumps(c, s, bs);
            t.crashed || (!t.again <==> forall b :: b in bs ==> QuietBallot(c, s, b))
    ensures (forall b :: b in bs ==> QuietBallot(c, s, b)) ==> TryBumps(c, s, bs) == s
    decreases |bs|
  {
    hide TryBump, QuietBallot, Honest;
    if |bs| != 0 {
      TryBumpRests(c, s, bs[0]);
      if QuietBallot(c, s, bs[0]) {
        TryBumpsRest(c, s, bs[1..]);
        assert forall b :: b in bs <==> b == bs[0] || b in bs[1..];
      } else {
        var t := TryBump(c, s, bs[0]);
        if !t.crashed {
          TryBumpsKeepAsking(c, t, bs[1..]);
        }
      }
    }
  }

  /** A round asks for another one unless it found the slot at rest; only the
      externalized and heard-from-quorum flags can still have changed. */
  lemma PassRests(c: Context, s: Slot)
    requires ContextOK(c) && Inv(c, s) && !s.crashed && !s.again
    ensures var p := Pass(c, s);
            !p.crashed && !p.again ==>
              Quiet(c, p) && p == s.(externalized := p.externalized, heard := p.heard)
  {
    hide Vote, TryBumps, QuietVote, QuietBallot, Inv, Honest, IsCommittedConfirmed;
    InvIsHonest(c, s);
    InvExternalized(c, s);
    var s1 := Decide(c, s);
    var bs := c.order(Known(s1.stmts));
    var s2 := TryBumps(c, s1, bs);
    if s.committed {
      assert s2 == s1 by { CommittedStops(c, s1, bs); }
    } else {
      if !s.pristine {
        VoteRests(c, s);
        if Vote(c, s).again {
          TryBumpsKeepAsking(c, s1, bs);
        }
      }
      if s1 == s {
        TryBumpsRest(c, s, bs);
      }
    }
    if !Pass(c, s).crashed && !Pass(c, s).again {
      RestCarries(c, s2, Pass(c, s));
    }
  }

  lemma CommittedStops(c: Context, s: Slot, bs: seq<Ballot>)
    requires s.committed
    ensures TryBumps(c, s, bs) == s
  {
  }

  lemma RestCarries(c: Context, s: Slot, t: Slot)
    requires t == s.(heard := t.heard)
    ensures QuietVote(c, t) == QuietVote(c, s)
    ensures forall b :: QuietBallot(c, t, b) == QuietBallot(c, s, b)
    ensures HearsQuorum(c, t) == HearsQuorum(c, s)
  {
    hide IsPrepared, IsPreparedConfirmed, IsCommitted, IsCommittedConfirmed, Contradicted;
    SameHearing(c, s, t);
  }

  /** A slot at rest stays as it is. */
  lemma RestIsFixed(c: Context, s: Slot)
    requires ContextOK(c) && Inv(c, s) && Quiet(c, s) && !s.crashed && !s.again
    ensures Pass(c, s) == s
  {
    hide Vote, TryBumps, QuietVote, QuietBallot, Inv, Honest, IsCommittedConfirmed;
    InvIsHonest(c, s);
    InvExternalized(c, s);
    var bs := c.order(Known(s.stmts));
    if s.committed {
      CommittedStops(c, s, bs);
    } else {
      if !s.pristine {
        VoteRests(c, s);
      }
      TryBumpsRest(c, s, bs);
    }
  }

  /** The advancement ends at rest. */
  lemma {:induction false} AdvanceRests(c: Context, s: Slot)
    requires ContextOK(c) && Inv(c, s) && Honest(c, s) && !s.crashed && !s.again
    ensures !Advance(c, s).crashed ==> Resting(c, Advance(c, s))
    decreases Measure(c, s)
  {
    hide Pass, Inv, Measure, Honest, Quiet;
    AdvanceKeeps(c, s);
    var p := Pass(c, s);
    if p.again && !p.crashed {
      var q := p.(again := false);
      PassProgress(c, s);
      MeasureIgnoresFlags(c, p, q);
      PassKeeps(c, s);
      InvExternalized(c, p);
      KeepsFlags(c, p, q);
      AdvanceRests(c, q);
    } else {
      PassRests(c, s);
    }
  }

  /** Calling the advancement again at once changes nothing. */
  lemma AdvanceIdempotent(c: Context, s: Slot)
    requires ContextOK(c) && Inv(c, s) && Honest(c, s) && !s.crashed && !s.again
    requires !Advance(c, s).crashed
    ensures var t := Advance(c, s); Honest(c, t) && !t.again && Advance(c, t) == t
  {
    hide Pass, Inv, Quiet, Honest;
    AdvanceRests(c, s);
    var t := Advance(c, s);
    InvIsHonest(c, t);
    RestIsFixed(c, t);
  }
}
