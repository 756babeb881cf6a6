/** A local quorum set with threshold zero: every test of the slot succeeds, so the slot commits to
    the first thing it hears, and exactly which envelopes then make an assertion fail. */
module SlotZero {
  import opened Quorums
  import opened SlotModel
  import opened SlotSafety
  import opened SlotQuiet
  import opened SlotAssertions
  import opened SlotVotes

  lemma ZeroTests(c: Context, stmts: Statements, current: Value, b: Ballot)
    requires Local(c).threshold == 0
    ensures IsPrepared(c, stmts, current, b) && IsPreparedConfirmed(c, stmts, b)
    ensures IsCommitted(c, stmts, b) && IsCommittedConfirmed(c, stmts, b.value)
  {
  }

  /** At rest and uncommitted, the slot has not heard anything yet. */
  lemma RestingIsFresh(c: Context, s: Slot)
    requires Resting(c, s) && Local(c).threshold == 0 && !s.committed
    ensures s.pristine && s.stmts == map[] && s.ballot.counter == 0 && !s.externalized
  {
    ZeroTests(c, s.stmts, s.ballot.value, s.ballot);
    InvExternalized(c, s);
    hide IsPrepared, IsPreparedConfirmed, IsCommitted, IsCommittedConfirmed, HearsQuorum, Less;
    if s.stmts != map[] {
      var k :| k in s.stmts;
      assert k.ballot in Known(s.stmts);
      ZeroTests(c, s.stmts, s.ballot.value, k.ballot);
      assert false;
    }
  }

  lemma VoteCommits(c: Context, s: Slot)
    requires ContextOK(c) && Inv(c, s) && !s.committed && !s.crashed && !s.pristine && Local(c).threshold == 0
    ensures Vote(c, s).committed && !Vote(c, s).crashed
  {
    hide AttemptPreparing, AttemptPrepared, AttemptCommitting, AttemptCommitted, Inv, Grows, Forward, ContextOK, Local;
    hide IsPrepared, IsPreparedConfirmed, IsCommitted;
    PreparingKeeps(c, s);
    var s1 := AttemptPreparing(c, s);
    ZeroTests(c, s1.stmts, s1.ballot.value, s1.ballot);
    PreparedKeeps(c, s1, s1.ballot);
    var s2 := AttemptPrepared(c, s1, s1.ballot);
    ZeroTests(c, s2.stmts, s2.ballot.value, s2.ballot);
    CommittingKeeps(c, s2);
    var s3 := AttemptCommitting(c, s2);
    ZeroTests(c, s3.stmts, s3.ballot.value, s3.ballot);
    CommittedKeeps(c, s3);
  }

  /** Advancing a committed slot fails no assertion, whatever the threshold. */
  lemma CommittedAdvances(c: Context, s: Slot)
    requires ContextOK(c) && Honest(c, s) && s.committed && !s.crashed && !s.again
    ensures !Advance(c, s).crashed
  {
    hide IsCommittedConfirmed, HearsQuorum, Vote, ContextOK, Honest;
    var s1 := Decide(c, s);
    CommittedStops(c, s1, c.order(Known(s1.stmts)));
  }

  /** A slot that has committed at the end of a round is safe from there on. */
  lemma AdvancesOnceCommitted(c: Context, s: Slot)
    requires ContextOK(c) && Inv(c, s) && Honest(c, s) && !s.crashed && !s.again
    requires Pass(c, s).committed && !Pass(c, s).crashed
    ensures !Advance(c, s).crashed
  {
    hide Pass, Inv, Honest, ContextOK, Measure, Grows, Forward;
    var p := Pass(c, s);
    if p.again {
      var q := p.(again := false);
      PassProgress(c, s);
      PassKeeps(c, s);
      InvExternalized(c, p);
      KeepsFlags(c, p, q);
      InvIsHonest(c, q);
      CommittedAdvances(c, q);
    }
  }

  /** A slot with a ballot commits in the first round. */
  lemma AdvanceCommits(c: Context, s: Slot)
    requires ContextOK(c) && Inv(c, s) && Honest(c, s) && !s.committed && !s.crashed && !s.again && !s.pristine
    requires Local(c).threshold == 0
    ensures !Advance(c, s).crashed
  {
    VoteCommits(c, s);
    PassCommits(c, s);
    hide Pass, Inv, Honest, ContextOK, Local, Vote;
    AdvancesOnceCommitted(c, s);
  }

  lemma PassCommits(c: Context, s: Slot)
    requires !s.pristine && !s.committed && Vote(c, s).committed && !Vote(c, s).crashed
    ensures Pass(c, s).committed && !Pass(c, s).crashed
  {
    hide Vote, HearsQuorum;
    var s1 := Decide(c, s);
    CommittedStops(c, s1, c.order(Known(s1.stmts)));
  }

  // ---------------------------------------------------------------- one statement on record

  /** Following the one known ballot: the slot commits at the ballot it moves to, and fails exactly
      when that is below the ballot it has heard of. */
  lemma LoneBump(c: Context, s: Slot, b: Ballot)
    requires ContextOK(c) && Inv(c, s) && Local(c).threshold == 0 && s.pristine && !s.committed && !s.crashed
    ensures var t := TryBump(c, s, b);
            && t.committed
            && (t.crashed <==> Less(c, ExternalizeBallot(c, s, b.value), b))
  {
    ZeroTests(c, s.stmts, s.ballot.value, b);
    InvIsHonest(c, s);
    var bx := ExternalizeBallot(c, s, b.value);
    MayBumpUp(c, s, bx);
    BumpKeeps(c, s, bx);
    var u := BumpToBallot(c, s, bx);
    InvIsHonest(c, u);
    CommittedKeeps(c, u);
    CommitEffect(c, u);
    var w := AttemptCommitted(c, u);
    ZeroTests(c, w.stmts, w.ballot.value, b);
    PreparedAfterCommitKeeps(c, w, b);
    hide Inv, ContextOK, Local, IsPrepared, IsCommittedConfirmed, AttemptCommitted, AttemptPrepared, Less, ExternalizeBallot, Honest;
    hide Grows, Forward;
  }

  lemma LonePass(c: Context, s: Slot, b: Ballot)
    requires ContextOK(c) && Inv(c, s) && Local(c).threshold == 0 && s.pristine && !s.committed && !s.crashed && !s.externalized
    requires Known(s.stmts) == {b}
    ensures Pass(c, s).crashed <==> Less(c, ExternalizeBallot(c, s, b.value), b)
    ensures Pass(c, s).committed
  {
    LoneBump(c, s, b);
    var bs := c.order(Known(s.stmts));
    assert b in bs && forall x :: x in bs ==> x == b;
    assert bs[0] in bs;
    hide Inv, ContextOK, Local, TryBump, HearsQuorum, Less, ExternalizeBallot;
    var t := TryBump(c, s, b);
    if t.crashed {
      CrashStops(c, t, bs[1..]);
    } else {
      CommittedStops(c, t, bs[1..]);
    }
  }

  lemma CrashStops(c: Context, s: Slot, bs: seq<Ballot>)
    requires s.crashed
    ensures TryBumps(c, s, bs) == s
  {
  }

  // ---------------------------------------------------------------- which events fail

  /** Where a fresh slot lands when it follows a value nobody has said COMMITTED about. */
  function Landing(c: Context, s: Slot, v: Value): Ballot
  {
    if Less(c, Ballot(0, v), s.ballot) then Ballot(1, v) else Ballot(0, v)
  }

  /** A PREPARED above the ballot the slot commits at on hearing of it. */
  predicate ZeroFatal(c: Context, s: Slot, env: Envelope)
  {
    var b := env.statement.ballot;
    && !s.committed
    && env.statement.kind == PREPARED
    && c.validValue(env.node, b.value)
    && Less(c, Landing(c, s, b.value), b)
  }

  lemma {:induction false} NoRaise(c: Context, stmts: Statements, b: Ballot, bs: seq<Ballot>)
    requires forall x :: Voters(stmts, x, COMMITTED) == {}
    ensures RaiseToCommitted(c, stmts, b, bs) == b
  {
    if |bs| != 0 {
      NoRaise(c, stmts, b, bs[..|bs| - 1]);
    }
  }

  /** The ballot moved to, with one statement on record. */
  lemma LoneLanding(c: Context, s: Slot, n: NodeID, st: Statement)
    requires ContextOK(c) && s.ballot.counter == 0 && s.stmts == map[Key(st.ballot, st.kind, n) := st]
    ensures Known(s.stmts) == {st.ballot}
    ensures st.kind == PREPARED ==> ExternalizeBallot(c, s, st.ballot.value) == Landing(c, s, st.ballot.value)
    ensures st.kind == COMMITTED ==> !Less(c, ExternalizeBallot(c, s, st.ballot.value), st.ballot)
  {
    var b, bs := st.ballot, c.order(Known(s.stmts));
    assert Key(b, st.kind, n).ballot == b;
    assert Known(s.stmts) == {b};
    assert b in bs;
    var landing := Landing(c, s, b.value);
    assert ExternalizeBallot(c, s, b.value) == RaiseToCommitted(c, s.stmts, landing, bs);
    if st.kind == PREPARED {
      NoRaise(c, s.stmts, landing, bs);
    }
    RaiseIsLargest(c, s.stmts, landing, bs);
    if st.kind == COMMITTED {
      assert Key(b, COMMITTED, n) in s.stmts;
    }
  }

  lemma StoredAlone(c: Context, s: Slot, env: Envelope)
    requires ContextOK(c) && Resting(c, s) && Honest(c, s) && Local(c).threshold == 0 && Genuine(c, s, env) && !s.committed
    requires Accept(c, s, env).stored && env.statement.kind != PREPARING
    ensures Deliver(c, s, env).slot.crashed <==> ZeroFatal(c, s, env)
  {
    hide Inv, Quiet, Honest, ContextOK, Local, Contradicted, HasCommitted, Less, ExternalizeBallot, Landing, Pass, Advance;
    RestingIsFresh(c, s);
    AcceptInv(c, s, env);
    AcceptHonest(c, s, env);
    var st, t := env.statement, Accept(c, s, env).slot;
    assert t.stmts == map[Key(st.ballot, st.kind, env.node) := st];
    LoneLanding(c, t, env.node, st);
    SameLanding(c, s, t, st.ballot.value);
    LonePass(c, t, st.ballot);
    if Pass(c, t).crashed {
      AdvanceStops(c, t);
    } else {
      AdvancesOnceCommitted(c, t);
    }
  }

  lemma SameLanding(c: Context, s: Slot, t: Slot, v: Value)
    requires s.ballot == t.ballot
    ensures Landing(c, s, v) == Landing(c, t, v)
  {
  }

  /** With threshold zero, an envelope makes an assertion fail exactly when it is a PREPARED above
      the ballot that an uncommitted slot commits at on hearing of it. */
  lemma ZeroDeliverFailsIff(c: Context, s: Slot, env: Envelope)
    requires ContextOK(c) && Resting(c, s) && Honest(c, s) && Local(c).threshold == 0 && Genuine(c, s, env)
    ensures Deliver(c, s, env).slot.crashed <==> ZeroFatal(c, s, env)
  {
    hide Inv, Quiet, Honest, ContextOK, Local, Contradicted, Less, Landing, Advance, Accept, BumpToBallot;
    var o := Accept(c, s, env);
    AcceptInv(c, s, env);
    AcceptHonest(c, s, env);
    if s.committed {
      AcceptedCommitted(c, s, env);
      if o.stored {
        CommittedAdvances(c, o.slot);
      }
    } else {
      RestingIsFresh(c, s);
      FreshAccepts(c, s, env);
      if o.stored {
        if env.statement.kind == PREPARING {
          AdvanceCommits(c, o.slot);
        } else {
          StoredAlone(c, s, env);
        }
      }
    }
  }

  lemma AcceptedCommitted(c: Context, s: Slot, env: Envelope)
    requires s.committed && !s.crashed
    ensures !Accept(c, s, env).slot.crashed && Accept(c, s, env).slot.committed && Accept(c, s, env).slot.again == s.again
  {
    hide Contradicted, HasCommitted, Less, MayBump;
  }

  lemma FreshAccepts(c: Context, s: Slot, env: Envelope)
    requires s.pristine && s.stmts == map[] && !s.committed && !s.crashed && !s.externalized && !s.again
    ensures var o, st := Accept(c, s, env), env.statement;
            && !o.slot.crashed && !o.slot.again && !o.slot.committed
            && (o.stored && st.kind == PREPARING ==> !o.slot.pristine)
            && (!o.stored ==> o.slot == s && (st.kind == PREPARED ==> !c.validValue(env.node, st.ballot.value)))
  {
  }

  /** With threshold zero no proposal makes an assertion fail. */
  lemma ZeroProposeSucceeds(c: Context, s: Slot, v: Value, force: bool)
    requires ContextOK(c) && Resting(c, s) && Honest(c, s) && Local(c).threshold == 0
    ensures !Propose(c, s, v, force).crashed
  {
    hide Inv, Quiet, Honest, ContextOK, Local, Less, Advance, MayBump;
    if !s.committed {
      RestingIsFresh(c, s);
      var b := ProposedBallot(c, s, v, force);
      MayBumpUp(c, s, b);
      BumpKeeps(c, s, b);
      BumpHonest(c, s, b);
      AdvanceCommits(c, BumpToBallot(c, s, b));
    }
  }

  /** The failure is reachable from a fresh slot: the first PREPARED with counter two or more is
      committed at a lower ballot and then followed upwards. */
  lemma ZeroThresholdFails(c: Context, env: Envelope)
    requires ContextOK(c) && Local(c).threshold == 0 && env.node != c.self
    requires env.statement.kind == PREPARED && env.statement.ballot.counter >= 2
    requires c.validValue(env.node, env.statement.ballot.value)
    ensures Honest(c, Initial(c)) && Deliver(c, Initial(c), env).slot.crashed
  {
    hide Inv, Quiet, Honest, ContextOK, Local, Deliver;
    InitialInv(c);
    InitialResting(c);
    ZeroDeliverFailsIff(c, Initial(c), env);
  }
}
