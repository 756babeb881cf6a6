/** Exactly which events of a run make an assertion of a correct slot fail, for every threshold. */
module NetworkFailures {
  import opened Quorums
  import opened SlotModel
  import opened SlotSafety
  import opened SlotQuiet
  import opened SlotAssertions
  import opened SlotZero
  import opened Network

  /** A proposal that has to increment the largest counter. */
  predicate FatalProposal(c: Context, s: Slot, v: Value, force: bool)
  {
    && Local(c).threshold > 0 && !s.committed && s.ballot.counter == MAX_COUNTER
    && (force || Less(c, Ballot(MAX_COUNTER, v), s.ballot))
  }

  predicate FatalArrival(c: Context, s: Slot, env: Envelope)
  {
    if Local(c).threshold > 0 then FatalEnvelope(c, s, env) else ZeroFatal(c, s, env)
  }

  /** The event makes an assertion of the slot of node `n` fail. */
  ghost predicate FatalEvent(cfg: Config, net: Network, e: Event, n: NodeID)
    requires n in net.slots
  {
    match e
    case Proposal(m, v, force) => m == n && FatalProposal(cfg.context(n), net.slots[n], v, force)
    case Arrival(m, env) => m == n && env in net.sent && FatalArrival(cfg.context(n), net.slots[n], env)
    case Forgery(_) => false
  }

  /** In every run, the next event makes an assertion of a correct slot fail exactly when it is
      fatal to it: nothing else fails, and whatever is fatal does. */
  lemma RunFailsIff(cfg: Config, events: seq<Event>, e: Event, n: NodeID)
    requires ConfigOK(cfg) && n in cfg.correct && !Run(cfg, events).slots[n].crashed
    ensures Run(cfg, events + [e]).slots[n].crashed <==> FatalEvent(cfg, Run(cfg, events), e, n)
  {
    hide Run, Inv, Resting, Authentic, RecordsAgree, Backed, ContextOK, Step, FatalEvent;
    RunOneMore(cfg, events, e);
    StepFailsIff(cfg, Run(cfg, events), e, n);
  }

  lemma StepFailsIff(cfg: Config, net: Network, e: Event, n: NodeID)
    requires ConfigOK(cfg) && NetInv(cfg, net) && n in cfg.correct && !net.slots[n].crashed
    requires n in Step(cfg, net, e).slots
    ensures Step(cfg, net, e).slots[n].crashed <==> FatalEvent(cfg, net, e, n)
  {
    hide Inv, Quiet, RecordsAgree, Backed, ContextOK, Honest, FatalEnvelope, ZeroFatal, Less, Deliver, Propose, Local;
    var c, s := cfg.context(n), net.slots[n];
    NetInvSlot(cfg, net, n);
    match e {
      case Proposal(m, v, force) =>
        if m == n {
          ProposalFailsIff(c, s, v, force);
        }
      case Arrival(m, env) =>
        if m == n && env in net.sent {
          ArrivalFailsIff(c, s, env);
        }
      case Forgery(_) =>
    }
  }

  lemma ProposalFailsIff(c: Context, s: Slot, v: Value, force: bool)
    requires ContextOK(c) && Resting(c, s) && Honest(c, s)
    ensures Propose(c, s, v, force).crashed <==> FatalProposal(c, s, v, force)
  {
    hide Inv, Quiet, ContextOK, Honest, Less, Propose, Local;
    if Local(c).threshold > 0 {
      ProposeFailsIff(c, s, v, force);
    } else {
      ZeroProposeSucceeds(c, s, v, force);
    }
  }

  lemma ArrivalFailsIff(c: Context, s: Slot, env: Envelope)
    requires ContextOK(c) && Resting(c, s) && Honest(c, s) && Genuine(c, s, env)
    ensures Deliver(c, s, env).slot.crashed <==> FatalArrival(c, s, env)
  {
    hide Inv, Quiet, ContextOK, Honest, FatalEnvelope, ZeroFatal, Deliver, Local;
    if Local(c).threshold > 0 {
      DeliverFailsIff(c, s, env);
    } else {
      ZeroDeliverFailsIff(c, s, env);
    }
  }
}
