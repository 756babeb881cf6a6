/** A ballot counter can be exhausted: one PREPARING that the validators let through takes a fresh
    slot to the largest counter, and the next forced proposal fails an assertion. */
module SlotExhaustion {
  import opened Quorums
  import opened SlotModel
  import opened SlotSafety
  import opened SlotQuiet
  import opened SlotAssertions
  import opened SlotVotes
  import opened Network

  // ---------------------------------------------------------------- a node alone does not commit

  /** Nobody but the node itself has said COMMITTING or COMMITTED. */
  ghost predicate Alone(c: Context, s: Slot)
  {
    forall k :: k in s.stmts && (k.kind == COMMITTING || k.kind == COMMITTED) ==> k.node == c.self
  }

  lemma AloneGrows(c: Context, s: Slot, t: Slot)
    requires Alone(c, s) && Keeps(c, s, t)
    ensures Alone(c, t)
  {
    hide Inv, Forward;
  }

  lemma NoQuorumAlone(c: Context, u: set<NodeID>)
    requires !HasQuorum(Local(c), {c.self}) && u <= {c.self}
    ensures !HasQuorum(Local(c), u)
  {
    CountMonotone(Local(c).validators, u, {c.self});
  }

  lemma ConfirmsNothingAlone(c: Context, s: Slot, v: Value)
    requires ContextOK(c) && Inv(c, s) && Alone(c, s) && !HasQuorum(Local(c), {c.self})
    ensures !IsCommittedConfirmed(c, s.stmts, v)
  {
    InvOneCommitted(c, s);
    CommittedConfirmedMeans(c, s.stmts, v);
    hide Inv, HasQuorum, IsCommittedConfirmed, ContextOK, OneCommitted;
    forall u | CommittedQuorum(c, s.stmts, v, u) ensures false {
      forall n | n in u ensures n == c.self {
        var b: Ballot :| CommittedFor(c, s.stmts, v, b, n, u);
        assert Key(b, COMMITTED, n).node == n;
      }
      NoQuorumAlone(c, u);
    }
  }

  lemma VoteAlone(c: Context, s: Slot)
    requires ContextOK(c) && Inv(c, s) && Alone(c, s) && !HasQuorum(Local(c), {c.self})
    requires !s.committed && !s.crashed && !s.pristine
    ensures !Vote(c, s).committed
  {
    var t, b := Vote(c, s), s.ballot;
    hide Vote, Inv, Forward, HasQuorum, ContextOK;
    VoteRestsOnQuorums(c, s);
    VoteKeeps(c, s);
    AloneGrows(c, s, t);
    if t.committed {
      var u :| QuorumOf(c, t.stmts, b, COMMITTING, u);
      forall n | n in u ensures n == c.self {
        assert Key(b, COMMITTING, n).node == n;
      }
      NoQuorumAlone(c, u);
    }
  }

  lemma TryBumpAlone(c: Context, s: Slot, b: Ballot)
    requires ContextOK(c) && Inv(c, s) && Alone(c, s) && !HasQuorum(Local(c), {c.self})
    requires !s.committed && !s.crashed
    ensures !TryBump(c, s, b).committed
  {
    hide Inv, HasQuorum, IsCommittedConfirmed, IsPrepared, AttemptPrepared, ContextOK, MayBump, Keeps;
    ConfirmsNothingAlone(c, s, b.value);
    PreparedKeeps(c, s, b);
  }

  lemma {:induction false} TryBumpsAlone(c: Context, s: Slot, bs: seq<Ballot>)
    requires ContextOK(c) && Inv(c, s) && Alone(c, s) && !HasQuorum(Local(c), {c.self})
    requires !s.committed
    ensures !TryBumps(c, s, bs).committed
    decreases |bs|
  {
    hide Inv, HasQuorum, TryBump, ContextOK, Alone;
    if |bs| != 0 && !s.externalized && !s.crashed {
      TryBumpAlone(c, s, bs[0]);
      TryBumpKeeps(c, s, bs[0]);
      AloneGrows(c, s, TryBump(c, s, bs[0]));
      TryBumpsAlone(c, TryBump(c, s, bs[0]), bs[1..]);
    }
  }

  lemma PassAlone(c: Context, s: Slot)
    requires ContextOK(c) && Inv(c, s) && Alone(c, s) && !HasQuorum(Local(c), {c.self})
    requires !s.committed && !s.crashed
    ensures !Pass(c, s).committed
  {
    hide Inv, HasQuorum, Vote, TryBumps, ContextOK, Alone, HearsQuorum, IsCommittedConfirmed;
    var t := Decide(c, s);
    if !s.pristine {
      VoteAlone(c, s);
    }
    DecideKeeps(c, s);
    AloneGrows(c, s, t);
    TryBumpsAlone(c, t, c.order(Known(t.stmts)));
  }

  lemma {:induction false} AdvanceAlone(c: Context, s: Slot)
    requires ContextOK(c) && Inv(c, s) && Honest(c, s) && Alone(c, s) && !HasQuorum(Local(c), {c.self})
    requires !s.committed && !s.crashed && !s.again
    ensures !Advance(c, s).committed
    decreases Measure(c, s)
  {
    hide Pass, Inv, Measure, Honest, HasQuorum, ContextOK, Alone, Grows, Forward;
    PassAlone(c, s);
    PassKeeps(c, s);
    var p := Pass(c, s);
    AloneGrows(c, s, p);
    if p.again && !p.crashed {
      var q := p.(again := false);
      PassProgress(c, s);
      MeasureIgnoresFlags(c, p, q);
      InvExternalized(c, p);
      KeepsFlags(c, p, q);
      AloneGrows(c, p, q);
      AdvanceAlone(c, q);
    }
  }

  // ---------------------------------------------------------------- the largest counter

  /** A PREPARING at the largest counter that the node's validators let through. */
  ghost predicate Exhausting(c: Context, env: Envelope)
  {
    && env.node != c.self && env.statement.kind == PREPARING
    && env.statement.ballot.counter == MAX_COUNTER
    && c.validValue(env.node, env.statement.ballot.value) && c.validBallot(env.node, env.statement.ballot)
  }

  lemma ExhaustingIsAccepted(c: Context, env: Envelope)
    requires Exhausting(c, env)
    ensures var o := Accept(c, Initial(c), env);
            && o.stored && o.slot == Store(BumpToBallot(c, Initial(c), env.statement.ballot), env.node, env.statement)
            && !o.slot.crashed && !o.slot.committed && !o.slot.again && o.slot.ballot == env.statement.ballot
            && o.slot.ballot.counter == MAX_COUNTER && !o.slot.pristine && Alone(c, o.slot)
  {
  }

  /** From a fresh slot of a node that is no quorum by itself, one such PREPARING leads to an
      uncommitted slot at rest with the counter exhausted. Every forced proposal then fails. */
  lemma CounterExhausts(c: Context, env: Envelope)
    requires ContextOK(c) && !HasQuorum(Local(c), {c.self}) && Exhausting(c, env)
    ensures Honest(c, Initial(c))
    ensures var t := Deliver(c, Initial(c), env).slot;
            && Resting(c, t) && Honest(c, t) && !t.crashed && !t.again && !t.committed && t.ballot.counter == MAX_COUNTER
            && forall v :: Propose(c, t, v, true).crashed
  {
    hide Inv, Quiet, Honest, ContextOK, Advance, Accept, Exhausting, Alone, HasQuorum, Propose;
    var s := Initial(c);
    InitialInv(c);
    InitialResting(c);
    PositiveThreshold(c);
    ExhaustingIsAccepted(c, env);
    NotFatal(c, s, env);
    AcceptInv(c, s, env);
    AcceptHonest(c, s, env);
    var u := Accept(c, s, env).slot;
    AdvanceAlone(c, u);
    AdvanceKeeps(c, u);
    AdvanceRests(c, u);
    DeliverFailsIff(c, s, env);
    var t := Advance(c, u);
    InvIsHonest(c, t);
    AtLeastCounter(c, t.ballot, u.ballot);
    forall v ensures Propose(c, t, v, true).crashed {
      ProposeFailsIff(c, t, v, true);
    }
  }

  lemma PositiveThreshold(c: Context)
    requires !HasQuorum(Local(c), {c.self})
    ensures Local(c).threshold > 0
  {
  }

  lemma NotFatal(c: Context, s: Slot, env: Envelope)
    requires Exhausting(c, env)
    ensures !FatalEnvelope(c, s, env) && Genuine(c, s, env)
  {
  }

  lemma AtLeastCounter(c: Context, a: Ballot, b: Ballot)
    requires !Less(c, a, b)
    ensures a.counter >= b.counter
  {
  }

  /** The failure is reachable in a network: a faulty node sends the PREPARING, it arrives, and
      the correct node's next forced proposal fails. */
  lemma ExhaustionRun(cfg: Config, n: NodeID, env: Envelope, v: Value)
    requires ConfigOK(cfg) && n in cfg.correct && env.node !in cfg.correct
    requires !HasQuorum(Local(cfg.context(n)), {n}) && Exhausting(cfg.context(n), env)
    ensures Run(cfg, [Forgery(env), Arrival(n, env), Proposal(n, v, true)]).slots[n].crashed
  {
    hide Run, NetInv, Exhausting, ContextOK, HasQuorum, Deliver, Propose, Honest, Resting;
    var c := cfg.context(n);
    var e1, e2, e3 := Forgery(env), Arrival(n, env), Proposal(n, v, true);
    CounterExhausts(c, env);
    RunOneMore(cfg, [], e1);
    RunOneMore(cfg, [e1], e2);
    RunOneMore(cfg, [e1, e2], e3);
    assert [] + [e1] == [e1] && [e1] + [e2] == [e1, e2] && [e1, e2] + [e3] == [e1, e2, e3];
    var n0, n1, n2 := Run(cfg, []), Run(cfg, [e1]), Run(cfg, [e1, e2]);
    FreshRun(cfg);
    StepForged(cfg, n0, env);
    StepArrived(cfg, n1, n, env);
    StepProposed(cfg, n2, n, v, true);
  }

  lemma FreshRun(cfg: Config)
    requires ConfigOK(cfg)
    ensures Run(cfg, []) == Start(cfg)
  {
  }

  lemma StepForged(cfg: Config, net: Network, env: Envelope)
    requires ConfigOK(cfg) && NetInv(cfg, net) && env.node !in cfg.correct
    ensures Step(cfg, net, Forgery(env)) == net.(sent := net.sent + {env})
  {
  }

  lemma StepArrived(cfg: Config, net: Network, n: NodeID, env: Envelope)
    requires ConfigOK(cfg) && NetInv(cfg, net) && n in cfg.correct && env in net.sent && !net.slots[n].crashed
    ensures ContextOK(cfg.context(n)) && Honest(cfg.context(n), net.slots[n]) && !net.slots[n].again
    ensures Genuine(cfg.context(n), net.slots[n], env)
    ensures n in Step(cfg, net, Arrival(n, env)).slots
    ensures Step(cfg, net, Arrival(n, env)).slots[n] == Deliver(cfg.context(n), net.slots[n], env).slot
  {
    hide Inv, Resting, ContextOK, Deliver, Honest, RecordsAgree, Backed;
    NetInvSlot(cfg, net, n);
  }

  lemma StepProposed(cfg: Config, net: Network, n: NodeID, v: Value, force: bool)
    requires ConfigOK(cfg) && NetInv(cfg, net) && n in cfg.correct && !net.slots[n].crashed
    ensures ContextOK(cfg.context(n)) && Honest(cfg.context(n), net.slots[n]) && !net.slots[n].again
    ensures n in Step(cfg, net, Proposal(n, v, force)).slots
    ensures Step(cfg, net, Proposal(n, v, force)).slots[n] == Propose(cfg.context(n), net.slots[n], v, force)
  {
    hide Inv, Resting, ContextOK, Propose, Honest, RecordsAgree, Backed;
    NetInvSlot(cfg, net, n);
  }
}
