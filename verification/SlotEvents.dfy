/** What an envelope does to a slot, case by case; that a slot at rest has left nothing undone; and
    that it commits only with a quorum on record. */
module SlotEvents {
  import opened Options
  import opened Quorums
  import opened SlotModel
  import opened SlotSafety
  import opened SlotQuiet
  import opened SlotAssertions
  import opened SlotVotes
  import opened SlotMoves

  // ---------------------------------------------------------------- what goes on record

  /** The node has a COMMITTED on record, for whatever ballot. */
  ghost predicate Committed(s: Slot, n: NodeID)
  {
    exists b :: Key(b, COMMITTED, n) in s.stmts
  }

  /** Every PREPARING of the node above the ballot lists it as excepted. */
  ghost predicate Uncontradicted(c: Context, s: Slot, n: NodeID, b: Ballot)
  {
    forall x :: Key(x, PREPARING, n) in s.stmts && Less(c, b, x) ==> b in s.stmts[Key(x, PREPARING, n)].excepted
  }

  /** The statements that a slot takes in. */
  ghost predicate Storable(c: Context, s: Slot, env: Envelope)
  {
    var st, n := env.statement, env.node;
    && c.validValue(n, st.ballot.value)
    && match st.kind
       case COMMITTED => !Committed(s, n)
       case PREPARING => !s.committed && c.validBallot(n, st.ballot)
       case PREPARED => !s.committed
       case COMMITTING => !s.committed && Key(st.ballot, PREPARED, n) in s.stmts && Uncontradicted(c, s, n, st.ballot)
  }

  ghost predicate OnRecord(s: Slot, env: Envelope)
  {
    KeyOf(env) in s.stmts && s.stmts[KeyOf(env)] == env.statement
  }

  lemma CommittedIff(s: Slot, n: NodeID)
    ensures HasCommitted(s.stmts, n) <==> Committed(s, n)
  {
    forall b | Key(b, COMMITTED, n) in s.stmts ensures HasCommitted(s.stmts, n) {
      assert Key(b, COMMITTED, n).kind == COMMITTED;
    }
    if HasCommitted(s.stmts, n) {
      var k :| k in s.stmts && k.kind == COMMITTED && k.node == n;
      assert k == Key(k.ballot, COMMITTED, n);
    }
  }

  lemma UncontradictedIff(c: Context, s: Slot, n: NodeID, b: Ballot)
    ensures Contradicted(c, s.stmts, n, b) <==> !Uncontradicted(c, s, n, b)
  {
    hide Less;
    if Contradicted(c, s.stmts, n, b) {
      var k :| k in s.stmts && k.kind == PREPARING && k.node == n && Less(c, b, k.ballot) && b !in s.stmts[k].excepted;
      assert k == Key(k.ballot, PREPARING, n);
    }
    if !Uncontradicted(c, s, n, b) {
      var x :| Key(x, PREPARING, n) in s.stmts && Less(c, b, x) && b !in s.stmts[Key(x, PREPARING, n)].excepted;
      assert Key(x, PREPARING, n).kind == PREPARING;
    }
  }

  /** Taking a statement in, before the slot is advanced. */
  lemma AcceptStoresIff(c: Context, s: Slot, env: Envelope)
    requires !s.crashed
    ensures var o := Accept(c, s, env);
            && (!o.slot.crashed ==> (o.stored <==> Storable(c, s, env)))
            && (o.stored ==> OnRecord(o.slot, env))
            && (!o.stored ==> o.slot.stmts == s.stmts)
  {
    StoredIff(c, s, env);
    AcceptStores(c, s, env);
    hide Accept, Storable;
  }

  lemma StoredIff(c: Context, s: Slot, env: Envelope)
    requires !s.crashed
    ensures var o := Accept(c, s, env); !o.slot.crashed ==> (o.stored <==> Storable(c, s, env))
  {
    CommittedIff(s, env.node);
    UncontradictedIff(c, s, env.node, env.statement.ballot);
    hide Contradicted, HasCommitted, Committed, Uncontradicted, Less, BumpToBallot, Store, Emit;
  }

  lemma AcceptStores(c: Context, s: Slot, env: Envelope)
    requires !s.crashed
    ensures var o := Accept(c, s, env);
            o.slot.stmts == if o.stored then s.stmts[KeyOf(env) := env.statement] else s.stmts
  {
    AcceptEffect(c, s, env);
    hide Accept, MayBump, Less, HasCommitted;
  }

  /** Unless an assertion fails, a statement is on record after it was delivered exactly when it was
      before or is one that a slot takes in. */
  lemma DeliverRecordsIff(c: Context, s: Slot, env: Envelope)
    requires ContextOK(c) && Inv(c, s) && Honest(c, s) && Genuine(c, s, env) && !s.crashed && !s.again
    ensures var t := Deliver(c, s, env).slot;
            !t.crashed ==> (OnRecord(t, env) <==> OnRecord(s, env) || Storable(c, s, env))
  {
    hide Inv, ContextOK, Honest, Accept, Advance, Storable, Forward;
    AcceptStoresIff(c, s, env);
    AcceptInv(c, s, env);
    AcceptHonest(c, s, env);
    var o := Accept(c, s, env);
    if o.stored {
      AcceptUncrashed(c, s, env);
      AdvanceKeeps(c, o.slot);
    }
  }

  lemma AcceptUncrashed(c: Context, s: Slot, env: Envelope)
    requires !s.crashed
    ensures Accept(c, s, env).stored ==> !Accept(c, s, env).slot.crashed
  {
    hide Contradicted, HasCommitted, Less, MayBump;
  }

  /** Nothing of another node's is lost or changed by a delivery, except by that node's own word. */
  lemma DeliverKeepsOthers(c: Context, s: Slot, env: Envelope, k: Key)
    requires ContextOK(c) && Inv(c, s) && Honest(c, s) && Genuine(c, s, env) && !s.crashed && !s.again
    requires k in s.stmts && k != KeyOf(env)
    ensures var t := Deliver(c, s, env).slot; k in t.stmts && t.stmts[k] == s.stmts[k]
  {
    hide Inv, ContextOK, Honest, Accept, Advance, Forward;
    AcceptStores(c, s, env);
    AcceptInv(c, s, env);
    AcceptHonest(c, s, env);
    AcceptUncrashed(c, s, env);
    var o := Accept(c, s, env);
    if o.stored {
      AdvanceKeeps(c, o.slot);
    }
  }

  // ---------------------------------------------------------------- how it is answered

  /** Rejected: the value, the ballot of a PREPARING, a COMMITTING the node's own PREPARING speaks
      against, or a second COMMITTED. */
  ghost predicate Rejected(c: Context, s: Slot, env: Envelope)
  {
    var st, n := env.statement, env.node;
    || !c.validValue(n, st.ballot.value)
    || match st.kind
       case COMMITTED => Committed(s, n)
       case PREPARING => !s.committed && !c.validBallot(n, st.ballot)
       case PREPARED => false
       case COMMITTING => !s.committed && !Uncontradicted(c, s, n, st.ballot)
  }

  /** Held back: a COMMITTING whose PREPARED has not arrived. */
  ghost predicate Early(c: Context, s: Slot, env: Envelope)
  {
    var st, n := env.statement, env.node;
    && c.validValue(n, st.ballot.value) && st.kind == COMMITTING && !s.committed
    && Uncontradicted(c, s, n, st.ballot) && Key(st.ballot, PREPARED, n) !in s.stmts
  }

  /** INVALID is answered exactly to what is rejected, STATEMENTS_MISSING exactly to what is early,
      and VALID to everything else; a PREPARING that only its ballot speaks against gets both.
      Nothing is answered twice the same. */
  ghost predicate Answered(c: Context, s: Slot, env: Envelope, answers: seq<Answer>)
  {
    && (INVALID in answers <==> Rejected(c, s, env))
    && (STATEMENTS_MISSING in answers <==> Early(c, s, env))
    && (VALID in answers <==>
          || (!Rejected(c, s, env) && !Early(c, s, env))
          || (c.validValue(env.node, env.statement.ballot.value) && env.statement.kind == PREPARING && Rejected(c, s, env)))
    && forall i, j :: 0 <= i < j < |answers| ==> answers[i] != answers[j]
  }

  lemma DeliverAnswers(c: Context, s: Slot, env: Envelope)
    requires ContextOK(c) && Inv(c, s) && Honest(c, s) && Genuine(c, s, env) && !s.crashed && !s.again
    ensures !Deliver(c, s, env).slot.crashed ==> Answered(c, s, env, Deliver(c, s, env).answers)
  {
    AcceptAnswers(c, s, env);
    DeliverAnswersAs(c, s, env);
    hide Inv, ContextOK, Honest, Accept, Deliver, Answered;
  }

  lemma DeliverAnswersAs(c: Context, s: Slot, env: Envelope)
    requires ContextOK(c) && Honest(c, s) && Genuine(c, s, env) && !s.crashed && !s.again
    ensures Deliver(c, s, env).answers == Accept(c, s, env).answers
    ensures Accept(c, s, env).slot.crashed ==> Deliver(c, s, env).slot.crashed
  {
    AcceptUncrashed(c, s, env);
    hide ContextOK, Honest, Accept, Advance;
  }

  lemma AcceptAnswers(c: Context, s: Slot, env: Envelope)
    requires !s.crashed
    ensures var o := Accept(c, s, env); !o.slot.crashed ==> Answered(c, s, env, o.answers)
  {
    CommittedIff(s, env.node);
    UncontradictedIff(c, s, env.node, env.statement.ballot);
    hide Contradicted, HasCommitted, Committed, Uncontradicted, Less, MayBump;
  }

  /** A committed slot answers any valid statement but a COMMITTED by sending its COMMITTED again,
      and changes nothing else. */
  lemma CommittedResends(c: Context, s: Slot, env: Envelope)
    requires ContextOK(c) && Honest(c, s) && Genuine(c, s, env) && !s.crashed && !s.again && s.committed
    requires c.validValue(env.node, env.statement.ballot.value) && env.statement.kind != COMMITTED
    ensures Deliver(c, s, env).slot ==
            s.(emitted := s.emitted + [Envelope(c.self, Statement(s.ballot, COMMITTED, c.localQSet, {}, None))])
  {
    hide Honest, ContextOK, Advance;
  }

  /** What is rejected or early leaves the slot as it is. */
  lemma RefusedChangesNothing(c: Context, s: Slot, env: Envelope)
    requires ContextOK(c) && Inv(c, s) && Honest(c, s) && Genuine(c, s, env) && !s.crashed && !s.again
    requires Rejected(c, s, env) || Early(c, s, env)
    ensures Deliver(c, s, env).slot == s
  {
    AcceptRefuses(c, s, env);
    hide Inv, ContextOK, Honest, Accept, Advance, Rejected, Early;
  }

  lemma AcceptRefuses(c: Context, s: Slot, env: Envelope)
    requires !s.crashed && (Rejected(c, s, env) || Early(c, s, env))
    ensures !Accept(c, s, env).stored && Accept(c, s, env).slot == s
  {
    CommittedIff(s, env.node);
    UncontradictedIff(c, s, env.node, env.statement.ballot);
    hide Contradicted, HasCommitted, Committed, Uncontradicted, Less, MayBump;
  }

  // ---------------------------------------------------------------- nothing left undone

  /** At rest a slot with a ballot has said PREPARING, and whatever a quorum on record calls for:
      PREPARED, COMMITTING unless its own PREPARING speaks against it, the commit, and the value. */
  lemma RestLeavesNothing(c: Context, s: Slot, u: set<NodeID>)
    requires ContextOK(c) && Resting(c, s) && !s.pristine
    ensures !s.committed ==> Key(s.ballot, PREPARING, c.self) in s.stmts
    ensures !s.committed && RatifiedBy(c, s.stmts, s.ballot.value, s.ballot, u) ==> Key(s.ballot, PREPARED, c.self) in s.stmts
    ensures (!s.committed && QuorumOf(c, s.stmts, s.ballot, PREPARED, u) && Key(s.ballot, PREPARED, c.self) in s.stmts
             && Uncontradicted(c, s, c.self, s.ballot)) ==> Key(s.ballot, COMMITTING, c.self) in s.stmts
    ensures QuorumOf(c, s.stmts, s.ballot, PREPARED, u) && QuorumOf(c, s.stmts, s.ballot, COMMITTING, u) ==> s.committed
    ensures s.committed && CommittedQuorum(c, s.stmts, s.ballot.value, u) ==> s.externalized
  {
    var b := s.ballot;
    PreparedMeans(c, s.stmts, b.value, b);
    PreparedConfirmedMeans(c, s.stmts, b);
    CommittedMeans(c, s.stmts, b);
    ConfirmedOnIff(c, s, b.value);
    UncontradictedIff(c, s, c.self, b);
    hide Inv, ContextOK, IsPrepared, IsPreparedConfirmed, IsCommitted, IsCommittedConfirmed, Contradicted, HearsQuorum;
    hide RatifiedBy, QuorumOf, CommittedQuorum, Uncontradicted, QuietBallot;
  }

  // ---------------------------------------------------------------- what a commit rests on

  /** A quorum of COMMITTING for the ballot, or of COMMITTED for its value, is on record. */
  ghost predicate Justified(c: Context, s: Slot)
  {
    || (exists u :: QuorumOf(c, s.stmts, s.ballot, COMMITTING, u))
    || ConfirmedOn(c, s.stmts, s.ballot.value)
  }

  lemma ConfirmedGrows(c: Context, s: Slot, t: Slot, v: Value)
    requires Grows(c, s, t) && ConfirmedOn(c, s.stmts, v)
    ensures ConfirmedOn(c, t.stmts, v)
  {
    hide HasQuorum;
    var u :| CommittedQuorum(c, s.stmts, v, u);
    forall n | n in u ensures exists b: Ballot :: CommittedFor(c, t.stmts, v, b, n, u) {
      var b: Ballot :| CommittedFor(c, s.stmts, v, b, n, u);
      assert CommittedFor(c, t.stmts, v, b, n, u);
    }
    assert CommittedQuorum(c, t.stmts, v, u);
  }

  lemma JustifiedGrows(c: Context, s: Slot, t: Slot)
    requires Grows(c, s, t) && Justified(c, s) && t.ballot == s.ballot
    ensures Justified(c, t)
  {
    if ConfirmedOn(c, s.stmts, s.ballot.value) {
      ConfirmedGrows(c, s, t, s.ballot.value);
    } else {
      var u :| QuorumOf(c, s.stmts, s.ballot, COMMITTING, u);
      QuorumOfGrows(c, s, t, s.ballot, COMMITTING, u);
    }
  }

  lemma VisitJustified(c: Context, s: Slot, b: Ballot)
    requires ContextOK(c) && Inv(c, s) && !s.committed && !s.crashed
    ensures var t := TryBump(c, s, b); !t.crashed && t.committed ==> Justified(c, t)
  {
    hide Inv, ContextOK, TryBump, Reaches, PreparedOn, Forward, ConfirmedOn, Grows, Less, QuorumOf;
    VisitMoves(c, s, b);
    TryBumpKeeps(c, s, b);
    var t := TryBump(c, s, b);
    if !t.crashed && t.committed {
      ReachesValue(c, s, b.value, t.ballot);
      ConfirmedGrows(c, s, t, b.value);
    }
  }

  lemma ReachesValue(c: Context, s: Slot, v: Value, y: Ballot)
    ensures Reaches(c, s, v, y) ==> y.value == v
  {
  }

  lemma {:induction false} VisitsJustified(c: Context, s: Slot, bs: seq<Ballot>)
    requires ContextOK(c) && Inv(c, s) && (s.committed ==> Justified(c, s))
    ensures var t := TryBumps(c, s, bs); !t.crashed && t.committed ==> Justified(c, t)
    decreases |bs|
  {
    hide Inv, ContextOK, TryBump, Justified, Grows, Forward;
    if |bs| != 0 && !s.committed && !s.externalized && !s.crashed {
      VisitJustified(c, s, bs[0]);
      TryBumpKeeps(c, s, bs[0]);
      var t := TryBump(c, s, bs[0]);
      if t.crashed {
        CrashedStops(c, t, bs[1..]);
      } else {
        VisitsJustified(c, t, bs[1..]);
      }
    }
  }

  lemma CrashedStops(c: Context, s: Slot, bs: seq<Ballot>)
    requires s.crashed
    ensures TryBumps(c, s, bs) == s
  {
  }

  lemma PassJustified(c: Context, s: Slot)
    requires ContextOK(c) && Inv(c, s) && !s.crashed && !s.committed
    ensures var t := Pass(c, s); !t.crashed && t.committed ==> Justified(c, t)
  {
    hide Inv, ContextOK, Vote, TryBumps, HearsQuorum, Keeps, QuorumOf, ConfirmedOn, IsCommittedConfirmed;
    if !s.pristine {
      VoteRestsOnQuorums(c, s);
      VoteKeeps(c, s);
      CommittedHere(c, s);
    }
    var s1 := Decide(c, s);
    DecideKeeps(c, s);
    InvOfKeeps(c, s, s1);
    VisitsJustified(c, s1, c.order(Known(s1.stmts)));
  }

  lemma CommittedHere(c: Context, s: Slot)
    requires ContextOK(c) && Inv(c, s) && !s.crashed && !s.committed && !s.pristine
    ensures Vote(c, s).ballot == s.ballot
  {
    hide Record, Inv, IsPrepared, IsPreparedConfirmed, IsCommitted, PreparingStatement, Grows, Forward;
    PreparingKeeps(c, s);
    var s1 := AttemptPreparing(c, s);
    PreparedKeeps(c, s1, s1.ballot);
    KeepsSelf(c, s1);
    var s2 := if IsPrepared(c, s1.stmts, s1.ballot.value, s1.ballot) then AttemptPrepared(c, s1, s1.ballot) else s1;
    CommittingKeeps(c, s2);
    var s3 := AttemptCommitting(c, s2);
    InvIsHonest(c, s3);
    CommitEffect(c, s3);
    hide AttemptPreparing, AttemptPrepared, AttemptCommitting, AttemptCommitted;
  }

  /** A slot commits only with a quorum of COMMITTING for its ballot, or of COMMITTED for its value,
      on record. */
  lemma {:induction false} CommitsOnQuorum(c: Context, s: Slot)
    requires ContextOK(c) && Inv(c, s) && Honest(c, s) && !s.crashed && !s.again && !s.committed
    ensures var t := Advance(c, s); !t.crashed && t.committed ==> Justified(c, t)
    decreases Measure(c, s)
  {
    hide Pass, Inv, Honest, ContextOK, Measure, Justified;
    PassJustified(c, s);
    PassKeeps(c, s);
    var p := Pass(c, s);
    if p.again && !p.crashed {
      var q := p.(again := false);
      PassProgress(c, s);
      MeasureIgnoresFlags(c, p, q);
      InvExternalized(c, p);
      KeepsFlags(c, p, q);
      InvIsHonest(c, q);
      if q.committed {
        JustifiedFlags(c, p, q);
        AdvanceKeeps(c, q);
        JustifiedGrows(c, q, Advance(c, q));
      } else {
        CommitsOnQuorum(c, q);
      }
    }
  }

  lemma JustifiedFlags(c: Context, s: Slot, t: Slot)
    requires t.stmts == s.stmts && t.ballot == s.ballot && Justified(c, s)
    ensures Justified(c, t)
  {
  }
}
