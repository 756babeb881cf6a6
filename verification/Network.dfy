/** A network of slots: correct nodes propose and receive, faulty nodes say anything under
    their own names, and sent envelopes arrive in any order, any number of times or never. */
module Network {
  import opened Quorums
  import opened SlotModel
  import opened SlotSafety
  import opened SlotQuiet
  import opened SlotAssertions

  datatype Config = Config(correct: set<NodeID>, context: NodeID -> Context)

  ghost predicate ConfigOK(cfg: Config)
  {
    && (forall n :: n in cfg.correct ==> ContextOK(cfg.context(n)) && cfg.context(n).self == n)
    && (forall n, m, h :: n in cfg.correct && m in cfg.correct ==>
          cfg.context(n).lookup(h) == cfg.context(m).lookup(h))
  }

  datatype Network = Network(slots: map<NodeID, Slot>, sent: set<Envelope>)

  datatype Event =
    | Proposal(node: NodeID, value: Value, force: bool)
    | Arrival(node: NodeID, env: Envelope)
    | Forgery(env: Envelope)

  /** `u` satisfies the quorum set of `i` and of every correct member. */
  ghost predicate IsQuorumFor(cfg: Config, i: NodeID, u: set<NodeID>)
  {
    && HasQuorum(Local(cfg.context(i)), u)
    && forall m :: m in u && m in cfg.correct ==> HasQuorum(Local(cfg.context(m)), u)
  }

  /** Any two quorums of correct nodes share a correct node. */
  ghost predicate QuorumsIntersect(cfg: Config)
  {
    forall i, j, u, w :: i in cfg.correct && j in cfg.correct && IsQuorumFor(cfg, i, u) && IsQuorumFor(cfg, j, w) ==>
      exists n :: n in cfg.correct && n in u && n in w
  }

  // ---------------------------------------------------------------- what every run keeps

  ghost predicate SlotsOK(cfg: Config, net: Network)
  {
    && net.slots.Keys == cfg.correct
    && forall n :: n in cfg.correct ==>
         && Inv(cfg.context(n), net.slots[n])
         && (!net.slots[n].crashed ==> Resting(cfg.context(n), net.slots[n]))
  }

  /** Only a node itself sends under its name. */
  ghost predicate Authentic(cfg: Config, net: Network)
    requires net.slots.Keys == cfg.correct
  {
    forall e :: e in net.sent && e.node in cfg.correct ==> e in net.slots[e.node].emitted
  }

  /** What a correct node has on record from another one, PREPARED aside, the other has on record too. */
  ghost predicate RecordsAgree(cfg: Config, net: Network)
    requires net.slots.Keys == cfg.correct
  {
    forall i, k :: i in cfg.correct && k in net.slots[i].stmts && k.node in cfg.correct && k.kind != PREPARED ==>
      k in net.slots[k.node].stmts && net.slots[k.node].stmts[k] == net.slots[i].stmts[k]
  }

  /** The correct members of `u` have all committed to value `v`. */
  ghost predicate CommittedTo(cfg: Config, net: Network, u: set<NodeID>, v: Value)
    requires net.slots.Keys == cfg.correct
  {
    forall n :: n in u && n in cfg.correct ==> net.slots[n].committed && net.slots[n].ballot.value == v
  }

  ghost predicate Backed(cfg: Config, net: Network)
    requires net.slots.Keys == cfg.correct
  {
    forall i :: i in cfg.correct && net.slots[i].externalized ==>
      exists u :: IsQuorumFor(cfg, i, u) && CommittedTo(cfg, net, u, net.slots[i].ballot.value)
  }

  ghost predicate NetInv(cfg: Config, net: Network)
  {
    SlotsOK(cfg, net) && Authentic(cfg, net) && RecordsAgree(cfg, net) && Backed(cfg, net)
  }

  ghost function Start(cfg: Config): Network
  {
    Network(map n | n in cfg.correct :: Initial(cfg.context(n)), {})
  }

  ghost predicate Enabled(cfg: Config, net: Network, e: Event)
    requires net.slots.Keys == cfg.correct
  {
    match e
    case Proposal(n, _, _) => n in cfg.correct && !net.slots[n].crashed
    case Arrival(n, env) => n in cfg.correct && !net.slots[n].crashed && env in net.sent
    case Forgery(env) => env.node !in cfg.correct
  }

  lemma NetInvSlot(cfg: Config, net: Network, n: NodeID)
    requires ConfigOK(cfg) && NetInv(cfg, net) && n in cfg.correct
    ensures Inv(cfg.context(n), net.slots[n]) && Honest(cfg.context(n), net.slots[n])
    ensures ContextOK(cfg.context(n)) && cfg.context(n).self == n
    ensures !net.slots[n].crashed ==> Resting(cfg.context(n), net.slots[n]) && !net.slots[n].again
  {
    hide Inv, Quiet, Honest, ContextOK;
    InvIsHonest(cfg.context(n), net.slots[n]);
  }

  /** The new state of the slot of a node that takes part in an event. */
  ghost function NewSlot(cfg: Config, net: Network, e: Event): Slot
    requires ConfigOK(cfg) && NetInv(cfg, net) && Enabled(cfg, net, e) && !e.Forgery?
  {
    NetInvSlot(cfg, net, e.node);
    match e
    case Proposal(n, v, force) => Propose(cfg.context(n), net.slots[n], v, force)
    case Arrival(n, env) =>
      assert Genuine(cfg.context(n), net.slots[n], env);
      Deliver(cfg.context(n), net.slots[n], env).slot
  }

  ghost function Step(cfg: Config, net: Network, e: Event): Network
    requires ConfigOK(cfg) && NetInv(cfg, net)
  {
    if !Enabled(cfg, net, e) then net
    else if e.Forgery? then net.(sent := net.sent + {e.env})
    else
      var t := NewSlot(cfg, net, e);
      Network(net.slots[e.node := t], net.sent + set x | x in t.emitted)
  }

  // ---------------------------------------------------------------- externalization

  lemma AcceptExternalized(c: Context, s: Slot, env: Envelope)
    ensures Accept(c, s, env).slot.externalized == s.externalized
  {
    hide Contradicted, HasCommitted, MayBump, Less, OwnStatement, Store, Emit, BumpToBallot;
    forall u: Slot, n, st ensures Store(u, n, st).externalized == u.externalized {
      StoreFlags(u, n, st);
    }
    BumpFlags(c, s, env.statement.ballot);
    EmitFlags(c, s, OwnStatement(c, s.ballot, COMMITTED));
  }

  lemma StoreFlags(s: Slot, n: NodeID, st: Statement)
    ensures Store(s, n, st).externalized == s.externalized
  {
  }

  lemma BumpFlags(c: Context, s: Slot, b: Ballot)
    ensures BumpToBallot(c, s, b).externalized == s.externalized
  {
  }

  lemma EmitFlags(c: Context, s: Slot, st: Statement)
    ensures Emit(c, s, st).externalized == s.externalized
  {
  }

  lemma RecordExternalized(c: Context, s: Slot, st: Statement)
    ensures Record(c, s, st).externalized == s.externalized
  {
    hide Accept;
    AcceptExternalized(c, s, Envelope(c.self, st));
  }

  lemma VoteExternalized(c: Context, s: Slot)
    ensures Vote(c, s).externalized == s.externalized
  {
    hide Record, IsPrepared, IsPreparedConfirmed, IsCommitted, PreparingStatement;
    var s1 := AttemptPreparing(c, s);
    RecordExternalized(c, s, PreparingStatement(c, s));
    RecordExternalized(c, s1, OwnStatement(c, s1.ballot, PREPARED));
    var s2 := if IsPrepared(c, s1.stmts, s1.ballot.value, s1.ballot) then AttemptPrepared(c, s1, s1.ballot) else s1;
    RecordExternalized(c, s2, OwnStatement(c, s2.ballot, COMMITTING));
    var s3 := AttemptCommitting(c, s2);
    RecordExternalized(c, s3.(committed := true), OwnStatement(c, s3.ballot, COMMITTED));
  }

  lemma TryBumpExternalized(c: Context, s: Slot, b: Ballot)
    ensures TryBump(c, s, b).externalized == s.externalized
  {
    hide Record, IsPrepared, IsCommittedConfirmed, ExternalizeBallot;
    var t := BumpToBallot(c, s, ExternalizeBallot(c, s, b.value));
    RecordExternalized(c, t.(committed := true), OwnStatement(c, t.ballot, COMMITTED));
    RecordExternalized(c, FollowConfirmed(c, s, b.value), OwnStatement(c, b, PREPARED));
  }

  lemma {:induction false} TryBumpsExternalized(c: Context, s: Slot, bs: seq<Ballot>)
    ensures TryBumps(c, s, bs).externalized == s.externalized
    decreases |bs|
  {
    hide TryBump;
    if |bs| != 0 && !s.committed && !s.externalized && !s.crashed {
      TryBumpExternalized(c, s, bs[0]);
      TryBumpsExternalized(c, TryBump(c, s, bs[0]), bs[1..]);
    }
  }

  /** A slot externalizes only a value that a quorum has committed to. */
  lemma {:induction false} AdvanceExternalizes(c: Context, s: Slot)
    requires ContextOK(c) && Honest(c, s) && !s.crashed && !s.again
    requires !s.externalized && Advance(c, s).externalized
    ensures var t := Advance(c, s); t.committed && IsCommittedConfirmed(c, t.stmts, t.ballot.value)
    decreases Measure(c, s)
  {
    hide Vote, TryBumps, Measure, Honest, IsCommittedConfirmed, HearsQuorum;
    VoteExternalized(c, s);
    var s1 := Decide(c, s);
    TryBumpsExternalized(c, s1, c.order(Known(s1.stmts)));
    var p := Pass(c, s);
    if p.externalized {
      CommittedStops(c, s1, c.order(Known(s1.stmts)));
    } else {
      PassProgress(c, s);
      MeasureIgnoresFlags(c, p, p.(again := false));
      AdvanceExternalizes(c, p.(again := false));
    }
  }

  lemma {:induction false} CommittedVotesRecorded(c: Context, stmts: Statements, v: Value, bs: seq<Ballot>, n: NodeID)
    requires n in CommittedVotes(c, stmts, v, bs)
    ensures exists b: Ballot :: b.value == v && Key(b, COMMITTED, n) in stmts &&
                        CommittedVotes(c, stmts, v, bs)[n] == c.lookup(stmts[Key(b, COMMITTED, n)].qset)
  {
    var front, b := bs[..|bs| - 1], bs[|bs| - 1];
    if b.value == v && n in Voters(stmts, b, COMMITTED) {
      assert Key(b, COMMITTED, n) in stmts;
    } else {
      CommittedVotesRecorded(c, stmts, v, front, n);
    }
  }

  /** The COMMITTED statements that confirm a value at a correct node come from a quorum
      whose correct members have committed to it. */
  lemma ConfirmedIsBacked(cfg: Config, net: Network, i: NodeID, v: Value)
    requires ConfigOK(cfg) && SlotsOK(cfg, net) && RecordsAgree(cfg, net) && i in cfg.correct
    requires IsCommittedConfirmed(cfg.context(i), net.slots[i].stmts, v)
    ensures exists u :: IsQuorumFor(cfg, i, u) && CommittedTo(cfg, net, u, v)
  {
    hide Quiet, ContextOK;
    var c, stmts := cfg.context(i), net.slots[i].stmts;
    var votes := CommittedVotes(c, stmts, v, c.order(Known(stmts)));
    var u := Sustained(votes.Keys, votes);
    SustainedIsGreatest(votes.Keys, votes);
    forall n | n in u && n in cfg.correct
      ensures net.slots[n].committed && net.slots[n].ballot.value == v
      ensures votes[n] == Local(cfg.context(n))
    {
      CommittedVotesRecorded(c, stmts, v, c.order(Known(stmts)), n);
      var b: Ballot :| b.value == v && Key(b, COMMITTED, n) in stmts && votes[n] == c.lookup(stmts[Key(b, COMMITTED, n)].qset);
      var k := Key(b, COMMITTED, n);
      assert k in net.slots[n].stmts && net.slots[n].stmts[k] == stmts[k];
      OwnCommittedFacts(cfg.context(n), net.slots[n], k);
    }
    assert IsQuorumFor(cfg, i, u);
    assert CommittedTo(cfg, net, u, v);
  }

  lemma OwnCommittedFacts(c: Context, s: Slot, k: Key)
    requires Inv(c, s) && k in s.stmts && k.node == c.self && k.kind == COMMITTED
    ensures s.committed && k.ballot == s.ballot && s.stmts[k].qset == c.localQSet
  {
  }

  // ---------------------------------------------------------------- one step

  /** What an event does to the slot of the node it concerns. */
  lemma NewSlotFacts(cfg: Config, net: Network, e: Event)
    requires ConfigOK(cfg) && NetInv(cfg, net) && Enabled(cfg, net, e) && !e.Forgery?
    ensures var n, s, t := e.node, net.slots[e.node], NewSlot(cfg, net, e);
      && Inv(cfg.context(n), t)
      && (!t.crashed ==> Resting(cfg.context(n), t))
      && Forward(cfg.context(n), s, t)
      && s.emitted <= t.emitted
      && (forall k :: k in s.stmts && k.node == n && k.kind != PREPARED ==> k in t.stmts && t.stmts[k] == s.stmts[k])
      && (forall k :: k in t.stmts ==>
            || (k in s.stmts && t.stmts[k] == s.stmts[k])
            || k.node == n
            || (e.Arrival? && k == KeyOf(e.env) && t.stmts[k] == e.env.statement))
      && (t.externalized && !s.externalized ==> IsCommittedConfirmed(cfg.context(n), t.stmts, t.ballot.value))
  {
    hide Inv, Quiet, Honest, ContextOK, Advance, IsCommittedConfirmed;
    var n := e.node;
    var c, s, t := cfg.context(n), net.slots[n], NewSlot(cfg, net, e);
    NetInvSlot(cfg, net, n);
    InvExternalized(c, s);
    match e {
      case Proposal(_, v, force) =>
        if !s.committed {
          var b := ProposedBallot(c, s, v, force);
          BumpKeeps(c, s, b);
          var u := BumpToBallot(c, s, b);
          if !u.crashed {
            BumpHonest(c, s, b);
            AdvanceFacts(c, u);
          }
        }
      case Arrival(_, env) =>
        hide Accept;
        AcceptInv(c, s, env);
        AcceptHonest(c, s, env);
        AcceptRests(c, s, env);
        var o := Accept(c, s, env);
        if o.stored {
          AdvanceFacts(c, o.slot);
        }
    }
  }

  lemma AdvanceFacts(c: Context, s: Slot)
    requires ContextOK(c) && Inv(c, s) && Honest(c, s) && !s.crashed && !s.again
    ensures var t := Advance(c, s);
      && Inv(c, t) && (!t.crashed ==> Resting(c, t)) && Forward(c, s, t) && Grows(c, s, t)
      && (t.externalized && !s.externalized ==> IsCommittedConfirmed(c, t.stmts, t.ballot.value))
  {
    hide Inv, Quiet, Honest, ContextOK, Advance, IsCommittedConfirmed;
    AdvanceKeeps(c, s);
    AdvanceRests(c, s);
    if !s.externalized && Advance(c, s).externalized {
      AdvanceExternalizes(c, s);
    }
  }

  /** An envelope that is not stored leaves the slot at rest. */
  lemma AcceptRests(c: Context, s: Slot, env: Envelope)
    requires ContextOK(c) && Resting(c, s) && Genuine(c, s, env)
    ensures var o := Accept(c, s, env); !o.stored && !o.slot.crashed ==> Resting(c, o.slot)
    ensures var o := Accept(c, s, env); o.stored ==> !o.slot.crashed && !o.slot.again
  {
    hide Accept, Inv, IsPrepared, IsPreparedConfirmed, IsCommitted, IsCommittedConfirmed, Contradicted, HasCommitted, MayBump, HearsQuorum;
    AcceptEffect(c, s, env);
    AcceptInv(c, s, env);
    var t := Accept(c, s, env).slot;
    if t == Emit(c, s, OwnStatement(c, s.ballot, COMMITTED)) {
      SameHearing(c, s, t);
    }
  }

  /** Every event keeps the network's invariant. */
  lemma StepKeeps(cfg: Config, net: Network, e: Event)
    requires ConfigOK(cfg) && NetInv(cfg, net)
    ensures NetInv(cfg, Step(cfg, net, e))
  {
    hide Inv, Resting, ContextOK, IsCommittedConfirmed, NewSlot, IsQuorumFor;
    if Enabled(cfg, net, e) {
      var net' := Step(cfg, net, e);
      if e.Forgery? {
        assert net'.slots == net.slots;
      } else {
        NewSlotFacts(cfg, net, e);
        var n, s, t := e.node, net.slots[e.node], NewSlot(cfg, net, e);
        assert net'.slots.Keys == cfg.correct;
        assert SlotsOK(cfg, net');
        assert Authentic(cfg, net') by {
          NetInvSlot(cfg, net, n);
          SentByItself(cfg.context(n), t);
        }
        StepRecords(cfg, net, e);
        StepBacked(cfg, net, e);
      }
    }
  }

  lemma SentByItself(c: Context, s: Slot)
    requires Inv(c, s)
    ensures forall x :: x in s.emitted ==> x.node == c.self
  {
  }

  lemma StepRecords(cfg: Config, net: Network, e: Event)
    requires ConfigOK(cfg) && NetInv(cfg, net) && Enabled(cfg, net, e) && !e.Forgery?
    requires Step(cfg, net, e).slots.Keys == cfg.correct
    ensures RecordsAgree(cfg, Step(cfg, net, e))
  {
    hide Inv, Resting, ContextOK, IsCommittedConfirmed, NewSlot, Forward, Backed;
    NewSlotFacts(cfg, net, e);
    var net' := Step(cfg, net, e);
    var n, s, t := e.node, net.slots[e.node], NewSlot(cfg, net, e);
    forall i, k | i in cfg.correct && k in net'.slots[i].stmts && k.node in cfg.correct && k.kind != PREPARED
      ensures k in net'.slots[k.node].stmts && net'.slots[k.node].stmts[k] == net'.slots[i].stmts[k]
    {
      if i == n && k.node != n && !(k in s.stmts && t.stmts[k] == s.stmts[k]) {
        assert e.env.node == k.node && e.env in net.slots[k.node].emitted;
        SentFacts(cfg.context(k.node), net.slots[k.node], e.env);
      } else if i != n || k.node != n {
        assert k in net.slots[i].stmts && net.slots[i].stmts[k] == net'.slots[i].stmts[k];
      }
    }
  }

  lemma StepBacked(cfg: Config, net: Network, e: Event)
    requires ConfigOK(cfg) && NetInv(cfg, net) && Enabled(cfg, net, e) && !e.Forgery?
    requires SlotsOK(cfg, Step(cfg, net, e)) && RecordsAgree(cfg, Step(cfg, net, e))
    ensures Backed(cfg, Step(cfg, net, e))
  {
    hide Inv, Resting, ContextOK, IsCommittedConfirmed, NewSlot, IsQuorumFor, RecordsAgree, Authentic;
    NewSlotFacts(cfg, net, e);
    var net' := Step(cfg, net, e);
    var n, s, t := e.node, net.slots[e.node], NewSlot(cfg, net, e);
    forall i | i in cfg.correct && net'.slots[i].externalized
      ensures exists u :: IsQuorumFor(cfg, i, u) && CommittedTo(cfg, net', u, net'.slots[i].ballot.value)
    {
      if i == n && !s.externalized {
        ConfirmedIsBacked(cfg, net', i, t.ballot.value);
      } else {
        NetInvSlot(cfg, net, i);
        InvExternalized(cfg.context(i), net.slots[i]);
        var u :| IsQuorumFor(cfg, i, u) && CommittedTo(cfg, net, u, net.slots[i].ballot.value);
        assert CommittedTo(cfg, net', u, net'.slots[i].ballot.value);
      }
    }
  }

  // ---------------------------------------------------------------- runs

  lemma StartKeeps(cfg: Config)
    requires ConfigOK(cfg)
    ensures NetInv(cfg, Start(cfg))
  {
    forall n | n in cfg.correct ensures Resting(cfg.context(n), Start(cfg).slots[n]) {
      InitialResting(cfg.context(n));
    }
  }

  /** The network after a run; events that cannot happen are skipped. */
  ghost function Run(cfg: Config, events: seq<Event>): (net: Network)
    requires ConfigOK(cfg)
    ensures NetInv(cfg, net)
  {
    if |events| == 0 then
      StartKeeps(cfg);
      Start(cfg)
    else
      var net := Run(cfg, events[..|events| - 1]);
      StepKeeps(cfg, net, events[|events| - 1]);
      Step(cfg, net, events[|events| - 1])
  }

  /** Agreement: in every run, any two correct slots that externalized have the same value. */
  lemma Agreement(cfg: Config, events: seq<Event>, i: NodeID, j: NodeID)
    requires ConfigOK(cfg) && QuorumsIntersect(cfg)
    requires i in cfg.correct && j in cfg.correct
    requires Run(cfg, events).slots[i].externalized && Run(cfg, events).slots[j].externalized
    ensures Run(cfg, events).slots[i].ballot.value == Run(cfg, events).slots[j].ballot.value
  {
    hide Inv, Resting, Authentic, RecordsAgree, ContextOK;
    var net := Run(cfg, events);
    var u :| IsQuorumFor(cfg, i, u) && CommittedTo(cfg, net, u, net.slots[i].ballot.value);
    var w :| IsQuorumFor(cfg, j, w) && CommittedTo(cfg, net, w, net.slots[j].ballot.value);
    var n :| n in cfg.correct && n in u && n in w;
  }

  /** Intersection holds outright for one common quorum set whose threshold outweighs the faulty validators. */
  lemma ThresholdIntersects(cfg: Config, q: QuorumSet, faulty: set<NodeID>)
    requires forall n :: n in cfg.correct ==> Local(cfg.context(n)) == q
    requires Distinct(q.validators) && forall v :: v in q.validators ==> v in cfg.correct || v in faulty
    requires 2 * q.threshold - |q.validators| > |faulty|
    ensures QuorumsIntersect(cfg)
  {
    forall i, j, u, w | i in cfg.correct && j in cfg.correct && IsQuorumFor(cfg, i, u) && IsQuorumFor(cfg, j, w)
      ensures exists n :: n in cfg.correct && n in u && n in w
    {
      ThresholdQuorumsIntersect(q, faulty, u, w);
    }
  }

  /** In every run the stored PREPARING statements stay at or below the current ballot. */
  lemma RunPreparingBelow(cfg: Config, events: seq<Event>, n: NodeID, k: Key)
    requires ConfigOK(cfg) && n in cfg.correct
    requires k in Run(cfg, events).slots[n].stmts && k.kind == PREPARING
    ensures !Less(cfg.context(n), Run(cfg, events).slots[n].ballot, k.ballot)
  {
    NetInvSlot(cfg, Run(cfg, events), n);
  }

  /** Along every run ballots never decrease, and commitments and externalized values are final. */
  lemma {:induction false} RunForward(cfg: Config, events: seq<Event>, more: seq<Event>, n: NodeID)
    requires ConfigOK(cfg) && n in cfg.correct
    ensures Forward(cfg.context(n), Run(cfg, events).slots[n], Run(cfg, events + more).slots[n])
    decreases |more|
  {
    hide Inv, Resting, Authentic, RecordsAgree, Backed, ContextOK, Step, Forward, Run;
    if |more| == 0 {
      assert events + more == events;
      ForwardSelf(cfg.context(n), Run(cfg, events).slots[n]);
    } else {
      var front, e := more[..|more| - 1], more[|more| - 1];
      RunForward(cfg, events, front, n);
      var net := Run(cfg, events + front);
      assert events + more == events + front + [e];
      RunOneMore(cfg, events + front, e);
      StepForward(cfg, net, e, n);
      ForwardTransitive(cfg.context(n), Run(cfg, events).slots[n], net.slots[n], Step(cfg, net, e).slots[n]);
    }
  }

  lemma RunOneMore(cfg: Config, events: seq<Event>, e: Event)
    requires ConfigOK(cfg)
    ensures Run(cfg, events + [e]) == Step(cfg, Run(cfg, events), e)
  {
    assert (events + [e])[..|events|] == events;
  }

  lemma StepForward(cfg: Config, net: Network, e: Event, n: NodeID)
    requires ConfigOK(cfg) && NetInv(cfg, net) && n in cfg.correct
    ensures n in Step(cfg, net, e).slots && Forward(cfg.context(n), net.slots[n], Step(cfg, net, e).slots[n])
  {
    hide Inv, Resting, Authentic, RecordsAgree, Backed, ContextOK, NewSlot, Forward;
    if Enabled(cfg, net, e) && !e.Forgery? {
      NewSlotFacts(cfg, net, e);
    }
    ForwardSelf(cfg.context(n), net.slots[n]);
  }

  lemma ForwardSelf(c: Context, s: Slot)
    ensures Forward(c, s, s)
  {
  }

  /** Agreement across time: values externalized at different moments of a run are equal as well. */
  lemma AgreementOverTime(cfg: Config, events: seq<Event>, more: seq<Event>, i: NodeID, j: NodeID)
    requires ConfigOK(cfg) && QuorumsIntersect(cfg)
    requires i in cfg.correct && j in cfg.correct
    requires Run(cfg, events).slots[i].externalized && Run(cfg, events + more).slots[j].externalized
    ensures Run(cfg, events).slots[i].ballot.value == Run(cfg, events + more).slots[j].ballot.value
  {
    hide Inv, Resting, Authentic, RecordsAgree, Backed, ContextOK, QuorumsIntersect;
    NetInvSlot(cfg, Run(cfg, events), i);
    InvExternalized(cfg.context(i), Run(cfg, events).slots[i]);
    RunForward(cfg, events, more, i);
    Agreement(cfg, events + more, i, j);
  }

  /** In every run, a PREPARING a correct node has sent for a ballot above one it has sent a
      COMMITTING for lists that ballot as excepted. */
  lemma RunNeverContradicts(cfg: Config, events: seq<Event>, n: NodeID, p: Envelope, q: Envelope)
    requires ConfigOK(cfg) && n in cfg.correct
    requires p in Run(cfg, events).slots[n].emitted && p.statement.kind == PREPARING
    requires q in Run(cfg, events).slots[n].emitted && q.statement.kind == COMMITTING
    requires Less(cfg.context(n), q.statement.ballot, p.statement.ballot)
    ensures q.statement.ballot in p.statement.excepted
  {
    hide Run, Less, Resting, Authentic, RecordsAgree, Backed, ContextOK;
    var c, s := cfg.context(n), Run(cfg, events).slots[n];
    NetInvSlot(cfg, Run(cfg, events), n);
    SentFacts(c, s, p);
    SentFacts(c, s, q);
    assert KeyOf(p).node == c.self && KeyOf(q).node == c.self;
  }

  /** Records of a consistent sender do not contradict its COMMITTING. */
  lemma ConsistentNotContradicted(c: Context, c': Context, s: Slot, t: Slot, b: Ballot)
    requires Inv(c', t) && Key(b, COMMITTING, c'.self) in t.stmts
    requires forall k :: k in s.stmts && k.node == c'.self && k.kind == PREPARING ==> k in t.stmts && t.stmts[k] == s.stmts[k]
    requires forall x, y :: Less(c, x, y) == Less(c', x, y)
    ensures !Contradicted(c, s.stmts, c'.self, b)
  {
    hide Less;
  }

  lemma CommittingAnswer(c: Context, s: Slot, env: Envelope)
    requires ContextOK(c) && Honest(c, s) && !s.crashed && !s.again && Genuine(c, s, env)
    requires env.statement.kind == COMMITTING && c.validValue(env.node, env.statement.ballot.value)
    requires !Contradicted(c, s.stmts, env.node, env.statement.ballot)
    ensures INVALID !in Deliver(c, s, env).answers
  {
    hide Contradicted, HasCommitted, Advance, Honest, Genuine;
  }

  /** A correct node never contradicts itself: whatever arrived before, no correct receiver
      answers INVALID to its COMMITTING unless it rejects the value itself. */
  lemma CommittingNeverInvalid(cfg: Config, events: seq<Event>, i: NodeID, env: Envelope)
    requires ConfigOK(cfg) && i in cfg.correct && env.node in cfg.correct
    requires var net := Run(cfg, events);
             env in net.sent && env.statement.kind == COMMITTING && !net.slots[i].crashed
    requires cfg.context(i).validValue(env.node, env.statement.ballot.value)
    requires forall a, b :: Less(cfg.context(i), a, b) == Less(cfg.context(env.node), a, b)
    ensures var c, s := cfg.context(i), Run(cfg, events).slots[i];
            && Honest(c, s) && !s.again && Genuine(c, s, env)
            && INVALID !in Deliver(c, s, env).answers
  {
    hide Inv, Resting, Backed, ContextOK, Less, Contradicted, Deliver, Honest;
    var net, n, b := Run(cfg, events), env.node, env.statement.ballot;
    var c, s := cfg.context(i), net.slots[i];
    NetInvSlot(cfg, net, i);
    NetInvSlot(cfg, net, n);
    SentFacts(cfg.context(n), net.slots[n], env);
    ConsistentNotContradicted(c, cfg.context(n), s, net.slots[n], b);
    CommittingAnswer(c, s, env);
  }

  /** With positive thresholds an assertion can only fail at a slot whose ballot counter is exhausted. */
  lemma FailureNeedsExhaustedCounter(cfg: Config, events: seq<Event>, e: Event, n: NodeID)
    requires ConfigOK(cfg) && n in cfg.correct && Local(cfg.context(n)).threshold > 0
    requires !Run(cfg, events).slots[n].crashed && Run(cfg, events + [e]).slots[n].crashed
    ensures Run(cfg, events).slots[n].ballot.counter == MAX_COUNTER && !Run(cfg, events).slots[n].committed
  {
    hide Inv, Resting, Authentic, RecordsAgree, Backed, ContextOK, Step, Local;
    assert (events + [e])[..|events + [e]| - 1] == events;
    assert Run(cfg, events + [e]) == Step(cfg, Run(cfg, events), e);
    StepFailure(cfg, Run(cfg, events), e, n);
  }

  lemma StepFailure(cfg: Config, net: Network, e: Event, n: NodeID)
    requires ConfigOK(cfg) && NetInv(cfg, net) && n in cfg.correct && Local(cfg.context(n)).threshold > 0
    requires !net.slots[n].crashed && Step(cfg, net, e).slots.Keys == cfg.correct && Step(cfg, net, e).slots[n].crashed
    ensures net.slots[n].ballot.counter == MAX_COUNTER && !net.slots[n].committed
  {
    hide Inv, Quiet, RecordsAgree, Backed, ContextOK, Honest, IsCommittedConfirmed, HasCommitted, Deliver, Propose, Local;
    var c, s := cfg.context(n), net.slots[n];
    NetInvSlot(cfg, net, n);
    assert Enabled(cfg, net, e) && !e.Forgery? && e.node == n;
    if e.Proposal? {
      ProposeFailsIff(c, s, e.value, e.force);
    } else {
      DeliverFailsIff(c, s, e.env);
    }
  }
}
