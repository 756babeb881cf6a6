/** Runs that get somewhere: what is sent can arrive, commits rest on quorums, and two correct nodes
    that need each other externalize a value. */
module NetworkProgress {
  import opened Options
  import opened Quorums
  import opened SlotModel
  import opened SlotSafety
  import opened SlotQuiet
  import opened SlotAssertions
  import opened SlotVotes
  import opened SlotMoves
  import opened SlotEvents
  import opened Network
  import opened SlotExhaustion

  // ---------------------------------------------------------------- over all runs

  /** Whatever a correct node has said is out on the network. */
  lemma {:induction false} RunSends(cfg: Config, events: seq<Event>, n: NodeID, e: Envelope)
    requires ConfigOK(cfg) && n in cfg.correct && e in Run(cfg, events).slots[n].emitted
    ensures e in Run(cfg, events).sent
  {
    hide Inv, Resting, Authentic, RecordsAgree, Backed, ContextOK, NewSlot;
    if |events| > 0 {
      var front, last := events[..|events| - 1], events[|events| - 1];
      var net := Run(cfg, front);
      assert Run(cfg, events) == Step(cfg, net, last);
      if e in net.slots[n].emitted {
        RunSends(cfg, front, n, e);
      }
    }
  }

  /** In every run a correct slot commits only with a quorum of COMMITTING for its ballot, or of
      COMMITTED for its value, on record. */
  lemma RunCommitsOnQuorum(cfg: Config, events: seq<Event>, e: Event, n: NodeID)
    requires ConfigOK(cfg) && n in cfg.correct
    requires var s, t := Run(cfg, events).slots[n], Run(cfg, events + [e]).slots[n];
             !s.committed && t.committed && !t.crashed
    ensures Justified(cfg.context(n), Run(cfg, events + [e]).slots[n])
  {
    hide Run, Inv, Resting, Authentic, RecordsAgree, Backed, ContextOK, Step, Justified;
    RunOneMore(cfg, events, e);
    StepCommits(cfg, Run(cfg, events), e, n);
  }

  lemma StepCommits(cfg: Config, net: Network, e: Event, n: NodeID)
    requires ConfigOK(cfg) && NetInv(cfg, net) && n in cfg.correct && n in Step(cfg, net, e).slots
    requires !net.slots[n].committed && Step(cfg, net, e).slots[n].committed && !Step(cfg, net, e).slots[n].crashed
    ensures Justified(cfg.context(n), Step(cfg, net, e).slots[n])
  {
    hide Inv, Quiet, RecordsAgree, Backed, ContextOK, Honest, Deliver, Propose, Justified;
    var c, s := cfg.context(n), net.slots[n];
    NetInvSlot(cfg, net, n);
    if Enabled(cfg, net, e) && !e.Forgery? && e.node == n {
      match e
      case Proposal(_, v, force) => ProposeCommits(c, s, v, force);
      case Arrival(_, env) => DeliverCommits(c, s, env);
    }
  }

  lemma ProposeCommits(c: Context, s: Slot, v: Value, force: bool)
    requires ContextOK(c) && Inv(c, s) && Honest(c, s) && !s.crashed && !s.again && !s.committed
    ensures var t := Propose(c, s, v, force); !t.crashed && t.committed ==> Justified(c, t)
  {
    hide Inv, ContextOK, Honest, Advance, MayBump, Justified;
    var b := ProposedBallot(c, s, v, force);
    BumpKeeps(c, s, b);
    if !BumpToBallot(c, s, b).crashed {
      BumpHonest(c, s, b);
      CommitsOnQuorum(c, BumpToBallot(c, s, b));
    }
  }

  lemma DeliverCommits(c: Context, s: Slot, env: Envelope)
    requires ContextOK(c) && Inv(c, s) && Honest(c, s) && Genuine(c, s, env) && !s.crashed && !s.again && !s.committed
    ensures var t := Deliver(c, s, env).slot; !t.crashed && t.committed ==> Justified(c, t)
  {
    hide Inv, ContextOK, Honest, Advance, Accept, Justified;
    AcceptInv(c, s, env);
    AcceptHonest(c, s, env);
    AcceptUncrashed(c, s, env);
    if Accept(c, s, env).stored {
      CommitsOnQuorum(c, Accept(c, s, env).slot);
    }
  }

  // ---------------------------------------------------------------- one ballot only

  /** Everything on record is about the slot's own ballot, names the one quorum set, and excepts no
      other value. */
  ghost predicate Lone(c: Context, s: Slot, b: Ballot, q: QuorumSet)
  {
    && !s.pristine && s.ballot == b && c.lookup(c.localQSet) == q
    && forall k :: k in s.stmts ==> k.ballot == b && Plain(c, s.stmts[k], b, q)
  }

  ghost predicate Plain(c: Context, st: Statement, b: Ballot, q: QuorumSet)
  {
    c.lookup(st.qset) == q && forall e :: e in st.excepted ==> e.value == b.value
  }

  lemma LoneStore(c: Context, s: Slot, t: Slot, n: NodeID, st: Statement, b: Ballot, q: QuorumSet)
    requires Lone(c, s, b, q) && t.ballot == s.ballot && t.pristine == s.pristine
    requires st.ballot == b && Plain(c, st, b, q) && t.stmts == s.stmts[Key(st.ballot, st.kind, n) := st]
    ensures Lone(c, t, b, q)
  {
    hide Plain;
  }

  lemma LoneRecord(c: Context, s: Slot, st: Statement, b: Ballot, q: QuorumSet)
    requires ContextOK(c) && Lone(c, s, b, q) && !s.committed && !s.crashed && st.kind != COMMITTED
    requires st.ballot == b && st.qset == c.localQSet && Plain(c, st, b, q)
    ensures Lone(c, Record(c, s, st), b, q)
  {
    hide Record, Lone, Plain;
    LoneMeans(c, s, b, q);
    RecordEffect(c, s, st);
    if Record(c, s, st) != s {
      LoneStore(c, s, Record(c, s, st), c.self, st, b, q);
    }
  }

  lemma LoneMeans(c: Context, s: Slot, b: Ballot, q: QuorumSet)
    requires Lone(c, s, b, q)
    ensures !s.pristine && s.ballot == b && Local(c) == q
    ensures forall k :: k in s.stmts ==> k.ballot == b
    ensures Known(s.stmts) <= {b}
  {
  }

  lemma OwnPlain(c: Context, s: Slot, kind: Kind, b: Ballot, q: QuorumSet)
    requires Lone(c, s, b, q)
    ensures Plain(c, OwnStatement(c, b, kind), b, q)
    ensures Plain(c, PreparingStatement(c, s), b, q)
  {
    hide LeastPrepared;
  }

  lemma LoneCommit(c: Context, s: Slot, b: Ballot, q: QuorumSet)
    requires ContextOK(c) && Inv(c, s) && Lone(c, s, b, q) && !s.committed && !s.crashed
    ensures Lone(c, AttemptCommitted(c, s), b, q)
  {
    hide Inv, AttemptCommitted, Plain, Lone;
    InvIsHonest(c, s);
    LoneMeans(c, s, b, q);
    CommitEffect(c, s);
    OwnPlain(c, s, COMMITTED, b, q);
    LoneStore(c, s, AttemptCommitted(c, s), c.self, OwnStatement(c, b, COMMITTED), b, q);
  }

  lemma LoneVote(c: Context, s: Slot, b: Ballot, q: QuorumSet)
    requires ContextOK(c) && Inv(c, s) && Lone(c, s, b, q) && !s.committed && !s.crashed
    ensures Lone(c, Vote(c, s), b, q)
  {
    hide Record, Inv, IsPrepared, IsPreparedConfirmed, IsCommitted, PreparingStatement, Grows, Forward, Lone, Plain, AttemptCommitted;
    LoneMeans(c, s, b, q);
    PreparingKeeps(c, s);
    PreparingSt(c, s);
    OwnPlain(c, s, PREPARED, b, q);
    OwnPlain(c, s, COMMITTING, b, q);
    PreparingQSet(c, s);
    LoneRecord(c, s, PreparingStatement(c, s), b, q);
    var s1 := AttemptPreparing(c, s);
    PreparedKeeps(c, s1, b);
    LoneRecord(c, s1, OwnStatement(c, b, PREPARED), b, q);
    KeepsSelf(c, s1);
    var s2 := if IsPrepared(c, s1.stmts, s1.ballot.value, s1.ballot) then AttemptPrepared(c, s1, s1.ballot) else s1;
    LoneMeans(c, s2, b, q);
    CommittingKeeps(c, s2);
    LoneRecord(c, s2, OwnStatement(c, b, COMMITTING), b, q);
    LoneCommit(c, AttemptCommitting(c, s2), b, q);
  }

  lemma PreparingQSet(c: Context, s: Slot)
    ensures PreparingStatement(c, s).qset == c.localQSet
  {
  }

  lemma SameBallot(c: Context, x: Ballot, y: Ballot)
    requires ContextOK(c) && !Less(c, x, y) && !Less(c, y, x)
    ensures x == y
  {
  }

  lemma LandsHere(c: Context, s: Slot, b: Ballot, q: QuorumSet, v: Value)
    requires ContextOK(c) && Inv(c, s) && Lone(c, s, b, q) && !s.committed && !s.crashed && v == b.value
    requires IsCommittedConfirmed(c, s.stmts, v) && !BumpToBallot(c, s, ExternalizeBallot(c, s, v)).crashed
    ensures ExternalizeBallot(c, s, v) == b
  {
    hide Inv, IsCommittedConfirmed, ExternalizeBallot, MayBump, Less, Plain;
    var bx := ExternalizeBallot(c, s, v);
    NoBumpDown(c, s, bx, v);
    ExternalizesLeast(c, s, v);
    LessIrreflexive(c, b);
    assert Reaches(c, s, v, b) by {
      forall x: Ballot, n | x.value == v && Key(x, COMMITTED, n) in s.stmts ensures !Less(c, b, x) {
        assert Key(x, COMMITTED, n).ballot == x;
      }
    }
    SameBallot(c, bx, b);
  }

  lemma LoneFollow(c: Context, s: Slot, b: Ballot, q: QuorumSet)
    requires ContextOK(c) && Inv(c, s) && Lone(c, s, b, q) && !s.committed && !s.crashed
    ensures var t := FollowConfirmed(c, s, b.value); !t.crashed ==> Lone(c, t, b, q)
  {
    hide Inv, IsCommittedConfirmed, ExternalizeBallot, MayBump, Plain, AttemptCommitted, Keeps;
    var bx := ExternalizeBallot(c, s, b.value);
    var u := BumpToBallot(c, s, bx);
    if IsCommittedConfirmed(c, s.stmts, b.value) && !u.crashed {
      LandsHere(c, s, b, q, b.value);
      BumpKeeps(c, s, bx);
      InvOfKeeps(c, s, u);
      LoneCommit(c, u, b, q);
    }
  }

  lemma LoneVisit(c: Context, s: Slot, b: Ballot, q: QuorumSet)
    requires ContextOK(c) && Inv(c, s) && Lone(c, s, b, q) && !s.committed && !s.crashed
    ensures var t := TryBump(c, s, b); !t.crashed ==> Lone(c, t, b, q)
  {
    hide Inv, ContextOK, FollowConfirmed, IsPrepared, Lone, Grows, Forward, Record, MayBump;
    LoneFollow(c, s, b, q);
    FollowConfirmedKeeps(c, s, b.value);
    var t := FollowConfirmed(c, s, b.value);
    if !t.crashed {
      LoneMeans(c, t, b, q);
      LessIrreflexive(c, b);
      LonePrepared(c, t, b, q);
    }
  }

  lemma LonePrepared(c: Context, s: Slot, b: Ballot, q: QuorumSet)
    requires ContextOK(c) && Inv(c, s) && Lone(c, s, b, q) && !s.crashed
    ensures Lone(c, AttemptPrepared(c, s, b), b, q)
  {
    if s.committed {
      PreparedAfterCommitKeeps(c, s, b);
      PreparedAfterCommitHears(c, s, b);
      PristineStays(c, s, b);
    } else {
      OwnPlain(c, s, PREPARED, b, q);
      LoneRecord(c, s, OwnStatement(c, b, PREPARED), b, q);
    }
    hide Inv, ContextOK, Record, Plain, Keeps;
  }

  lemma PristineStays(c: Context, s: Slot, b: Ballot)
    requires Inv(c, s) && s.committed && ContextOK(c) && !s.crashed
    ensures !s.pristine ==> !AttemptPrepared(c, s, b).pristine
  {
    PreparedAfterCommitKeeps(c, s, b);
    hide Inv, AttemptPrepared, Grows;
  }

  lemma {:induction false} LoneVisits(c: Context, s: Slot, bs: seq<Ballot>, b: Ballot, q: QuorumSet)
    requires ContextOK(c) && Inv(c, s) && Lone(c, s, b, q) && forall x :: x in bs ==> x == b
    ensures var t := TryBumps(c, s, bs); !t.crashed ==> Lone(c, t, b, q)
    decreases |bs|
  {
    hide Inv, ContextOK, TryBump, Lone, Grows, Forward;
    if |bs| != 0 && !s.committed && !s.externalized && !s.crashed {
      LoneVisit(c, s, b, q);
      TryBumpKeeps(c, s, b);
      var t := TryBump(c, s, b);
      assert bs[0] in bs && forall x :: x in bs[1..] ==> x in bs;
      if t.crashed {
        CrashedStops(c, t, bs[1..]);
      } else {
        LoneVisits(c, t, bs[1..], b, q);
      }
    }
  }

  lemma LonePass(c: Context, s: Slot, b: Ballot, q: QuorumSet)
    requires ContextOK(c) && Inv(c, s) && Lone(c, s, b, q) && !s.crashed
    ensures !Pass(c, s).crashed ==> Lone(c, Pass(c, s), b, q)
  {
    hide Inv, Vote, TryBumps, HearsQuorum, Keeps, IsCommittedConfirmed, Plain;
    if !s.committed {
      LoneVote(c, s, b, q);
    }
    var s1 := Decide(c, s);
    DecideKeeps(c, s);
    InvOfKeeps(c, s, s1);
    LoneMeans(c, s1, b, q);
    LoneVisits(c, s1, c.order(Known(s1.stmts)), b, q);
  }

  lemma {:induction false} LoneAdvance(c: Context, s: Slot, b: Ballot, q: QuorumSet)
    requires ContextOK(c) && Inv(c, s) && Honest(c, s) && Lone(c, s, b, q) && !s.crashed && !s.again
    ensures !Advance(c, s).crashed ==> Lone(c, Advance(c, s), b, q)
    decreases Measure(c, s)
  {
    hide Pass, Inv, Honest, ContextOK, Measure, Plain;
    LonePass(c, s, b, q);
    PassKeeps(c, s);
    var p := Pass(c, s);
    if p.again && !p.crashed {
      var p' := p.(again := false);
      PassProgress(c, s);
      MeasureIgnoresFlags(c, p, p');
      InvExternalized(c, p);
      KeepsFlags(c, p, p');
      LoneAdvance(c, p', b, q);
    }
  }

  // ---------------------------------------------------------------- two nodes that need each other

  /** The other node's statements about the ballot are exactly those of the first `j` kinds. */
  ghost predicate HeardFrom(s: Slot, b: Ballot, other: NodeID, j: nat)
  {
    forall kind :: Key(b, kind, other) in s.stmts <==> KindRank(kind) < j
  }

  /** The node itself has made the statements of the first `j` kinds. */
  ghost predicate Said(c: Context, s: Slot, b: Ballot, j: nat)
  {
    forall kind :: KindRank(kind) < j ==> Key(b, kind, c.self) in s.stmts
  }

  /** The quorum set needs both nodes. */
  ghost predicate Needs(q: QuorumSet, p: NodeID, other: NodeID)
  {
    HasQuorum(q, {p, other}) && forall u :: HasQuorum(q, u) ==> other in u
  }

  /** A slot that has heard `j` statements of the other node and answered each of them. */
  ghost predicate At(c: Context, s: Slot, b: Ballot, q: QuorumSet, other: NodeID, j: nat)
  {
    && Resting(c, s) && Lone(c, s, b, q) && HeardFrom(s, b, other, j) && Said(c, s, b, j + 1)
    && (s.committed <==> j >= 3)
  }

  /** A slot that has externalized the ballot and said all there is to say. */
  ghost predicate Finished(c: Context, s: Slot, b: Ballot, q: QuorumSet)
  {
    s.externalized && Lone(c, s, b, q) && Said(c, s, b, 4)
  }

  lemma PairQuorum(c: Context, s: Slot, b: Ballot, q: QuorumSet, other: NodeID, kind: Kind)
    requires Lone(c, s, b, q) && Needs(q, c.self, other)
    requires Key(b, kind, c.self) in s.stmts && Key(b, kind, other) in s.stmts
    ensures QuorumOf(c, s.stmts, b, kind, {c.self, other})
  {
    hide HasQuorum;
  }

  lemma PairRatifies(c: Context, s: Slot, b: Ballot, q: QuorumSet, other: NodeID)
    requires Lone(c, s, b, q) && Needs(q, c.self, other)
    requires Key(b, PREPARING, c.self) in s.stmts && Key(b, PREPARING, other) in s.stmts
    ensures RatifiedBy(c, s.stmts, b.value, b, {c.self, other})
  {
    PairQuorum(c, s, b, q, other, PREPARING);
    hide HasQuorum, QuorumOf;
  }

  /** Nobody commits without the other's COMMITTING or COMMITTED. */
  lemma CommitNamesOther(c: Context, s: Slot, b: Ballot, q: QuorumSet, other: NodeID)
    requires Lone(c, s, b, q) && Needs(q, c.self, other) && Justified(c, s)
    ensures Key(b, COMMITTING, other) in s.stmts || Key(b, COMMITTED, other) in s.stmts
  {
    hide HasQuorum;
    if ConfirmedOn(c, s.stmts, s.ballot.value) {
      var u :| CommittedQuorum(c, s.stmts, s.ballot.value, u);
      var x: Ballot :| CommittedFor(c, s.stmts, s.ballot.value, x, other, u);
      assert Key(x, COMMITTED, other).ballot == b;
    } else {
      var u :| QuorumOf(c, s.stmts, s.ballot, COMMITTING, u);
      assert other in u;
    }
  }

  lemma LoneUncontradicted(c: Context, s: Slot, b: Ballot, q: QuorumSet, n: NodeID)
    requires Lone(c, s, b, q)
    ensures Uncontradicted(c, s, n, b)
  {
    LessIrreflexive(c, b);
    hide Less, Plain;
    forall x | Key(x, PREPARING, n) in s.stmts ensures x == b {
      assert Key(x, PREPARING, n).ballot == b;
    }
  }

  /** A slot at rest has answered what it has heard. */
  lemma RestAnswers(c: Context, s: Slot, b: Ballot, q: QuorumSet, other: NodeID, j: nat)
    requires ContextOK(c) && Resting(c, s) && Lone(c, s, b, q) && Needs(q, c.self, other) && HeardFrom(s, b, other, j) && j <= 3
    requires j == 3 ==> Said(c, s, b, 3)
    requires j < 3 ==> !s.committed
    ensures At(c, s, b, q, other, j)
  {
    hide Inv, Quiet, ContextOK, Lone, Needs, Uncontradicted, QuorumOf, RatifiedBy, CommittedQuorum;
    var u := {c.self, other};
    LoneMeans(c, s, b, q);
    LoneUncontradicted(c, s, b, q, c.self);
    RestLeavesNothing(c, s, u);
    if j >= 1 && Key(b, PREPARING, c.self) in s.stmts {
      PairRatifies(c, s, b, q, other);
    }
    if j >= 2 && Key(b, PREPARED, c.self) in s.stmts {
      PairQuorum(c, s, b, q, other, PREPARED);
    }
    if j >= 3 {
      PairQuorum(c, s, b, q, other, COMMITTING);
      CommittedIsRecorded(c, s);
    }
  }

  lemma CommittedIsRecorded(c: Context, s: Slot)
    requires Inv(c, s) && s.committed
    ensures Key(s.ballot, COMMITTED, c.self) in s.stmts
  {
  }

  lemma RestExternalizes(c: Context, s: Slot, b: Ballot, q: QuorumSet, other: NodeID)
    requires ContextOK(c) && Resting(c, s) && Lone(c, s, b, q) && Needs(q, c.self, other) && s.committed
    requires Key(b, COMMITTED, other) in s.stmts
    ensures s.externalized && s.ballot == b
  {
    var u := {c.self, other};
    CommittedIsRecorded(c, s);
    assert CommittedQuorum(c, s.stmts, b.value, u) by {
      hide HasQuorum, Inv, Quiet;
      forall n | n in u ensures exists x: Ballot :: CommittedFor(c, s.stmts, b.value, x, n, u) {
        assert CommittedFor(c, s.stmts, b.value, b, n, u);
      }
    }
    hide Inv, Quiet, ContextOK, CommittedQuorum, RatifiedBy, QuorumOf, Uncontradicted;
    RestLeavesNothing(c, s, u);
  }

  /** A slot that stands at `j` takes in the other's next statement and stands at `j + 1`. */
  lemma TakesNext(c: Context, s: Slot, b: Ballot, q: QuorumSet, env: Envelope, j: nat)
    requires ContextOK(c) && Honest(c, s) && At(c, s, b, q, env.node, j) && Needs(q, c.self, env.node) && j <= 3
    requires env.node != c.self && KindRank(env.statement.kind) == j && env.statement.ballot == b && Plain(c, env.statement, b, q)
    requires c.validValue(env.node, b.value) && c.validBallot(env.node, b)
    requires var t := Deliver(c, s, env).slot; !t.crashed && Resting(c, t)
    ensures var t := Deliver(c, s, env).slot;
            if j < 3 then At(c, t, b, q, env.node, j + 1) else Finished(c, t, b, q)
  {
    hide Inv, Quiet, ContextOK, Honest, Lone, Needs, Deliver, Plain, HeardFrom, Justified;
    var t, other := Deliver(c, s, env).slot, env.node;
    NextIsStorable(c, s, b, q, env, j);
    DeliverRecordsIff(c, s, env);
    DeliverLone(c, s, b, q, env);
    HearsNext(c, s, b, env, j);
    SaidStays(c, s, b, env, j + 1);
    DeliverForward(c, s, env);
    if j < 3 {
      if j < 2 {
        DeliverCommits(c, s, env);
        NoCommitYet(c, t, b, q, other, j + 1);
      }
      RestAnswers(c, t, b, q, other, j + 1);
    } else {
      LoneMeans(c, t, b, q);
      RestExternalizes(c, t, b, q, other);
    }
  }

  lemma NoCommitYet(c: Context, s: Slot, b: Ballot, q: QuorumSet, other: NodeID, j: nat)
    requires Lone(c, s, b, q) && Needs(q, c.self, other) && HeardFrom(s, b, other, j) && j < 3
    requires s.committed ==> Justified(c, s)
    ensures !s.committed
  {
    hide Lone, Needs, Justified;
    if s.committed {
      CommitNamesOther(c, s, b, q, other);
    }
  }

  lemma NextIsStorable(c: Context, s: Slot, b: Ballot, q: QuorumSet, env: Envelope, j: nat)
    requires At(c, s, b, q, env.node, j) && j <= 3 && KindRank(env.statement.kind) == j && env.statement.ballot == b
    requires c.validValue(env.node, b.value) && c.validBallot(env.node, b)
    ensures Storable(c, s, env)
  {
    LoneMeans(c, s, b, q);
    LoneUncontradicted(c, s, b, q, env.node);
    hide Resting, Lone, Uncontradicted;
    forall x | Key(x, COMMITTED, env.node) in s.stmts ensures x == b {
      assert Key(x, COMMITTED, env.node).ballot == b;
    }
  }

  lemma DeliverForward(c: Context, s: Slot, env: Envelope)
    requires ContextOK(c) && Inv(c, s) && Honest(c, s) && Genuine(c, s, env) && !s.crashed && !s.again
    ensures s.committed ==> Deliver(c, s, env).slot.committed
  {
    hide Inv, ContextOK, Honest, Advance, Accept, Grows, Less;
    AcceptInv(c, s, env);
    AcceptHonest(c, s, env);
    AcceptUncrashed(c, s, env);
    if Accept(c, s, env).stored {
      AdvanceKeeps(c, Accept(c, s, env).slot);
    }
  }

  lemma DeliverLone(c: Context, s: Slot, b: Ballot, q: QuorumSet, env: Envelope)
    requires ContextOK(c) && Inv(c, s) && Honest(c, s) && Genuine(c, s, env) && !s.crashed && !s.again && Lone(c, s, b, q)
    requires env.statement.ballot == b && Plain(c, env.statement, b, q)
    ensures !Deliver(c, s, env).slot.crashed ==> Lone(c, Deliver(c, s, env).slot, b, q)
  {
    hide Inv, ContextOK, Honest, Advance, Accept, Plain, Lone, MayBump, HasCommitted;
    AcceptInv(c, s, env);
    AcceptHonest(c, s, env);
    AcceptUncrashed(c, s, env);
    AcceptEffect(c, s, env);
    LoneMeans(c, s, b, q);
    LessIrreflexive(c, b);
    var o := Accept(c, s, env);
    if o.stored {
      LoneStore(c, s, o.slot, env.node, env.statement, b, q);
      LoneAdvance(c, o.slot, b, q);
    } else if !o.slot.crashed {
      LoneSame(c, s, o.slot, b, q);
    }
  }

  lemma LoneSame(c: Context, s: Slot, t: Slot, b: Ballot, q: QuorumSet)
    requires Lone(c, s, b, q) && t.stmts == s.stmts && t.ballot == s.ballot && t.pristine == s.pristine
    ensures Lone(c, t, b, q)
  {
  }

  /** What has been heard from the other node after its next statement. */
  lemma HearsNext(c: Context, s: Slot, b: Ballot, env: Envelope, j: nat)
    requires ContextOK(c) && Inv(c, s) && Honest(c, s) && Genuine(c, s, env) && !s.crashed && !s.again
    requires HeardFrom(s, b, env.node, j) && env.node != c.self && KindRank(env.statement.kind) == j && env.statement.ballot == b
    requires Storable(c, s, env) && !Deliver(c, s, env).slot.crashed
    ensures HeardFrom(Deliver(c, s, env).slot, b, env.node, j + 1)
  {
    hide Inv, ContextOK, Honest, Advance, Accept, Storable, Forward;
    AcceptStoresIff(c, s, env);
    AcceptStores(c, s, env);
    AcceptInv(c, s, env);
    AcceptHonest(c, s, env);
    AcceptUncrashed(c, s, env);
    DeliverAnswersAs(c, s, env);
    var o := Accept(c, s, env);
    AdvanceKeeps(c, o.slot);
    var t := Advance(c, o.slot);
    forall kind ensures Key(b, kind, env.node) in t.stmts <==> KindRank(kind) < j + 1 {
      assert Key(b, kind, env.node) in t.stmts <==> Key(b, kind, env.node) in o.slot.stmts;
      SameRank(kind, env.statement.kind);
    }
  }

  lemma SameRank(a: Kind, b: Kind)
    ensures KindRank(a) == KindRank(b) <==> a == b
  {
  }

  lemma SaidStays(c: Context, s: Slot, b: Ballot, env: Envelope, j: nat)
    requires ContextOK(c) && Inv(c, s) && Honest(c, s) && Genuine(c, s, env) && !s.crashed && !s.again
    requires Said(c, s, b, j) && env.node != c.self
    ensures Said(c, Deliver(c, s, env).slot, b, j)
  {
    hide Inv, ContextOK, Honest, Deliver, KindRank;
    forall kind | KindRank(kind) < j ensures Key(b, kind, c.self) in Deliver(c, s, env).slot.stmts {
      DeliverKeepsOthers(c, s, env, Key(b, kind, c.self));
    }
  }

  // ---------------------------------------------------------------- the run

  /** Two correct nodes with one quorum set that needs both of them, whose validators accept each
      other. */
  ghost predicate Pair(cfg: Config, q: QuorumSet, p: NodeID, r: NodeID)
  {
    && ConfigOK(cfg) && p != r && p in cfg.correct && r in cfg.correct
    && Trusts(cfg.context(p), q, r) && Trusts(cfg.context(r), q, p)
  }

  ghost predicate Trusts(c: Context, q: QuorumSet, other: NodeID)
  {
    && c.lookup(c.localQSet) == q && Needs(q, c.self, other)
    && Accepts(c, other)
  }

  ghost predicate Accepts(c: Context, other: NodeID)
  {
    (forall v :: c.validValue(other, v)) && (forall b :: c.validBallot(other, b))
  }

  /** Threshold two over two nodes needs both. */
  lemma BothNeeded(p: NodeID, r: NodeID)
    requires p != r
    ensures Needs(QuorumSet(2, [p, r]), p, r) && Needs(QuorumSet(2, [p, r]), r, p)
  {
    forall u ensures HasQuorum(QuorumSet(2, [p, r]), u) <==> p in u && r in u {
      assert [p, r][..1] == [p] && [p][..0] == [];
      assert Count([p, r], u) == Count([p], u) + if r in u then 1 else 0;
      assert Count([p], u) == Count([], u) + if p in u then 1 else 0;
    }
  }

  /** Where a node stands in a run. */
  ghost predicate Stands(cfg: Config, events: seq<Event>, b: Ballot, q: QuorumSet, n: NodeID, other: NodeID, j: nat)
    requires ConfigOK(cfg) && n in cfg.correct
  {
    !Run(cfg, events).slots[n].crashed && At(cfg.context(n), Run(cfg, events).slots[n], b, q, other, j)
  }

  lemma NeedsThreshold(q: QuorumSet, p: NodeID, other: NodeID)
    requires Needs(q, p, other)
    ensures q.threshold > 0
  {
    CountNone(q.validators);
    if q.threshold == 0 {
      assert HasQuorum(q, {});
    }
  }

  function KindOf(j: nat): Kind
  {
    if j == 0 then PREPARING else if j == 1 then PREPARED else if j == 2 then COMMITTING else COMMITTED
  }

  lemma KindOfRank(j: nat)
    requires j <= 3
    ensures KindRank(KindOf(j)) == j
  {
  }

  /** The other node's statement of kind `j` can arrive: it is out, and of the right shape. */
  lemma NextArrives(cfg: Config, events: seq<Event>, b: Ballot, q: QuorumSet, n: NodeID, other: NodeID, j: nat) returns (env: Envelope)
    requires Pair(cfg, q, n, other) && j <= 3
    requires Lone(cfg.context(other), Run(cfg, events).slots[other], b, q)
    requires Key(b, KindOf(j), other) in Run(cfg, events).slots[other].stmts
    ensures env in Run(cfg, events).sent && env.node == other && KindRank(env.statement.kind) == j && env.statement.ballot == b
    ensures Plain(cfg.context(n), env.statement, b, q)
  {
    hide Run, Inv, Resting, Authentic, RecordsAgree, Backed;
    var net := Run(cfg, events);
    var k := Key(b, KindOf(j), other);
    NetInvSlot(cfg, net, other);
    env := Envelope(other, net.slots[other].stmts[k]);
    OwnIsSent(cfg.context(other), net.slots[other], k);
    RunSends(cfg, events, other, env);
    KindOfRank(j);
  }

  /** Delivering the other node's next statement. */
  lemma Exchange(cfg: Config, events: seq<Event>, b: Ballot, q: QuorumSet, n: NodeID, other: NodeID, j: nat) returns (later: seq<Event>)
    requires Pair(cfg, q, n, other) && j <= 3 && b.counter < MAX_COUNTER
    requires Stands(cfg, events, b, q, n, other, j)
    requires Lone(cfg.context(other), Run(cfg, events).slots[other], b, q)
    requires Key(b, KindOf(j), other) in Run(cfg, events).slots[other].stmts
    ensures Run(cfg, later).slots[other] == Run(cfg, events).slots[other]
    ensures j < 3 ==> Stands(cfg, later, b, q, n, other, j + 1)
    ensures j == 3 ==> Finished(cfg.context(n), Run(cfg, later).slots[n], b, q)
  {
    hide Run, Inv, Quiet, Authentic, RecordsAgree, Backed, Lone, HeardFrom, Said, Needs, Plain, Deliver, Honest, ContextOK, KindOf, KindRank;
    var c, net := cfg.context(n), Run(cfg, events);
    LoneMeans(c, net.slots[n], b, q);
    var env := NextArrives(cfg, events, b, q, n, other, j);
    var e := Arrival(n, env);
    later := events + [e];
    RunOneMore(cfg, events, e);
    NetInvSlot(cfg, net, n);
    StepArrived(cfg, net, n, env);
    StepOthers(cfg, net, e, other);
    Unfailing(cfg, events, e, n, b, q, other);
    NetInvSlot(cfg, Run(cfg, later), n);
    TakesNext(c, net.slots[n], b, q, env, j);
  }

  lemma StepOthers(cfg: Config, net: Network, e: Event, n: NodeID)
    requires ConfigOK(cfg) && NetInv(cfg, net) && n in cfg.correct && (e.Forgery? || e.node != n)
    ensures n in Step(cfg, net, e).slots && Step(cfg, net, e).slots[n] == net.slots[n]
  {
    hide Inv, Resting, ContextOK, RecordsAgree, Backed, NewSlot;
  }

  lemma Unfailing(cfg: Config, events: seq<Event>, e: Event, n: NodeID, b: Ballot, q: QuorumSet, other: NodeID)
    requires ConfigOK(cfg) && n in cfg.correct && !Run(cfg, events).slots[n].crashed
    requires Local(cfg.context(n)) == q && Needs(q, n, other) && Run(cfg, events).slots[n].ballot.counter < MAX_COUNTER
    ensures !Run(cfg, events + [e]).slots[n].crashed
  {
    hide Run, Needs;
    NeedsThreshold(q, n, other);
    if Run(cfg, events + [e]).slots[n].crashed {
      FailureNeedsExhaustedCounter(cfg, events, e, n);
    }
  }

  // ---------------------------------------------------------------- the start

  /** A fresh slot that proposes stands at the proposed ballot and has said PREPARING. */
  lemma Begins(c: Context, v: Value, q: QuorumSet, other: NodeID)
    requires ContextOK(c) && Honest(c, Initial(c)) && Local(c) == q && Needs(q, c.self, other) && other != c.self
    requires var t := Propose(c, Initial(c), v, false); !t.crashed && Resting(c, t)
    ensures At(c, Propose(c, Initial(c), v, false), Ballot(0, v), q, other, 0)
  {
    hide Inv, Quiet, ContextOK, Honest, Needs, Advance, MayBump, Justified;
    var s, b := Initial(c), Ballot(0, v);
    var u, t := BumpToBallot(c, s, b), Propose(c, s, v, false);
    InitialInv(c);
    BumpKeeps(c, s, b);
    BumpHonest(c, s, b);
    LoneAdvance(c, u, b, q);
    AdvanceKeeps(c, u);
    ProposeCommits(c, s, v, false);
    SilentStays(c, u, t, b, other);
    NoCommitYet(c, t, b, q, other, 0);
    RestAnswers(c, t, b, q, other, 0);
  }

  lemma SilentStays(c: Context, s: Slot, t: Slot, b: Ballot, other: NodeID)
    requires Grows(c, s, t) && s.stmts == map[] && other != c.self
    ensures HeardFrom(t, b, other, 0)
  {
  }

  /** A fresh slot that receives a PREPARING joins its ballot and answers. */
  lemma Joins(c: Context, b: Ballot, q: QuorumSet, env: Envelope)
    requires ContextOK(c) && Honest(c, Initial(c)) && Genuine(c, Initial(c), env) && Local(c) == q && Needs(q, c.self, env.node)
    requires env.node != c.self && env.statement.kind == PREPARING && env.statement.ballot == b && Plain(c, env.statement, b, q)
    requires c.validValue(env.node, b.value) && c.validBallot(env.node, b)
    requires var t := Deliver(c, Initial(c), env).slot; !t.crashed && Resting(c, t)
    ensures At(c, Deliver(c, Initial(c), env).slot, b, q, env.node, 1)
  {
    hide Inv, Quiet, ContextOK, Honest, Needs, Advance, Justified, Storable, Plain, Accept, HeardFrom, Lone;
    var s, other := Initial(c), env.node;
    var o, t := Accept(c, s, env), Deliver(c, s, env).slot;
    InitialInv(c);
    FreshJoins(c, b, q, env);
    AcceptInv(c, s, env);
    AcceptHonest(c, s, env);
    FreshStorable(c, env);
    HearsNext(c, s, b, env, 0);
    LoneAdvance(c, o.slot, b, q);
    DeliverCommits(c, s, env);
    NoCommitYet(c, t, b, q, other, 1);
    RestAnswers(c, t, b, q, other, 1);
  }

  lemma FreshStorable(c: Context, env: Envelope)
    requires env.statement.kind == PREPARING
    requires c.validValue(env.node, env.statement.ballot.value) && c.validBallot(env.node, env.statement.ballot)
    ensures Storable(c, Initial(c), env)
    ensures forall b :: HeardFrom(Initial(c), b, env.node, 0)
  {
  }

  lemma FreshJoins(c: Context, b: Ballot, q: QuorumSet, env: Envelope)
    requires Local(c) == q && env.statement.kind == PREPARING && env.statement.ballot == b && Plain(c, env.statement, b, q)
    requires c.validValue(env.node, b.value) && c.validBallot(env.node, b)
    ensures var o := Accept(c, Initial(c), env);
            o.stored && !o.slot.crashed && !o.slot.again && Lone(c, o.slot, b, q)
  {
    hide Plain;
  }

  /** The proposer starts. */
  lemma Opening(cfg: Config, q: QuorumSet, p: NodeID, r: NodeID, v: Value)
    requires Pair(cfg, q, p, r)
    ensures var events := [Proposal(p, v, false)];
            Stands(cfg, events, Ballot(0, v), q, p, r, 0) && Run(cfg, events).slots[r] == Initial(cfg.context(r))
  {
    hide Run, Inv, Quiet, Authentic, RecordsAgree, Backed, Needs, Propose, Honest, ContextOK, At;
    var c, e := cfg.context(p), Proposal(p, v, false);
    FreshRun(cfg);
    RunOneMore(cfg, [], e);
    assert [] + [e] == [e];
    var net := Run(cfg, []);
    NetInvSlot(cfg, net, p);
    StepProposed(cfg, net, p, v, false);
    StepOthers(cfg, net, e, r);
    Unfailing(cfg, [], e, p, Ballot(0, v), q, r);
    NetInvSlot(cfg, Run(cfg, [e]), p);
    Begins(c, v, q, r);
  }

  /** The other node joins. */
  lemma Joining(cfg: Config, events: seq<Event>, b: Ballot, q: QuorumSet, p: NodeID, r: NodeID) returns (later: seq<Event>)
    requires Pair(cfg, q, p, r) && Stands(cfg, events, b, q, p, r, 0) && Run(cfg, events).slots[r] == Initial(cfg.context(r))
    ensures Stands(cfg, later, b, q, p, r, 0) && Stands(cfg, later, b, q, r, p, 1)
  {
    hide Run, Inv, Quiet, Authentic, RecordsAgree, Backed, Needs, Deliver, Honest, ContextOK, Lone, HeardFrom, Plain;
    var c, net := cfg.context(r), Run(cfg, events);
    var env := NextArrives(cfg, events, b, q, r, p, 0);
    var e := Arrival(r, env);
    later := events + [e];
    RunOneMore(cfg, events, e);
    NetInvSlot(cfg, net, r);
    StepArrived(cfg, net, r, env);
    StepOthers(cfg, net, e, p);
    Unfailing(cfg, events, e, r, b, q, p);
    NetInvSlot(cfg, Run(cfg, later), r);
    Joins(c, b, q, env);
  }

  /** What the other node needs for its next step is there. */
  lemma SpokenFor(cfg: Config, events: seq<Event>, b: Ballot, q: QuorumSet, n: NodeID, other: NodeID, j: nat, i: nat)
    requires ConfigOK(cfg) && n in cfg.correct && Stands(cfg, events, b, q, n, other, j) && i <= j && i <= 3
    ensures Lone(cfg.context(n), Run(cfg, events).slots[n], b, q)
    ensures Key(b, KindOf(i), n) in Run(cfg, events).slots[n].stmts
  {
    hide Run, Inv, Quiet, Lone, HeardFrom, ContextOK;
    KindOfRank(i);
  }

  lemma PairTurned(cfg: Config, q: QuorumSet, p: NodeID, r: NodeID)
    requires Pair(cfg, q, p, r)
    ensures Pair(cfg, q, r, p) && ConfigOK(cfg) && p in cfg.correct && r in cfg.correct
    ensures cfg.context(p).self == p && cfg.context(r).self == r
  {
  }

  /** Both nodes come to commit the ballot. */
  lemma BothCommit(cfg: Config, q: QuorumSet, p: NodeID, r: NodeID, v: Value) returns (events: seq<Event>)
    requires Pair(cfg, q, p, r) && ConfigOK(cfg) && p in cfg.correct && r in cfg.correct
    ensures Stands(cfg, events, Ballot(0, v), q, p, r, 3) && Stands(cfg, events, Ballot(0, v), q, r, p, 3)
  {
    hide Pair, ConfigOK, Run, Stands;
    var b := Ballot(0, v);
    PairTurned(cfg, q, p, r);
    Opening(cfg, q, p, r, v);
    events := Joining(cfg, [Proposal(p, v, false)], b, q, p, r);
    events := Turn(cfg, events, b, q, p, r, 0, 1);
    events := Turn(cfg, events, b, q, p, r, 1, 1);
    events := Turn(cfg, events, b, q, r, p, 1, 2);
    events := Turn(cfg, events, b, q, r, p, 2, 2);
    events := Turn(cfg, events, b, q, p, r, 2, 3);
  }

  /** Two correct nodes that need each other, and need nobody else, have a run in which both
      externalize what one of them proposed. */
  lemma PairExternalizes(cfg: Config, q: QuorumSet, p: NodeID, r: NodeID, v: Value) returns (events: seq<Event>)
    requires Pair(cfg, q, p, r)
    ensures forall n :: n in {p, r} ==> Run(cfg, events).slots[n].externalized && Run(cfg, events).slots[n].ballot.value == v
  {
    hide Run, Inv, Resting, Authentic, RecordsAgree, Backed, ContextOK, Stands, Lone, Said, Needs, Trusts, Finished;
    var b := Ballot(0, v);
    PairTurned(cfg, q, p, r);
    events := BothCommit(cfg, q, p, r, v);
    SpokenFor(cfg, events, b, q, r, p, 3, 3);
    SpokenFor(cfg, events, b, q, p, r, 3, 3);
    var middle := Exchange(cfg, events, b, q, r, p, 3);
    FinishedMeans(cfg.context(r), Run(cfg, middle).slots[r], b, q);
    StandsStill(cfg, events, middle, b, q, p, r, 3);
    events := Exchange(cfg, middle, b, q, p, r, 3);
    FinishedMeans(cfg.context(p), Run(cfg, events).slots[p], b, q);
  }

  lemma StandsStill(cfg: Config, events: seq<Event>, later: seq<Event>, b: Ballot, q: QuorumSet, n: NodeID, other: NodeID, j: nat)
    requires ConfigOK(cfg) && n in cfg.correct && Stands(cfg, events, b, q, n, other, j)
    requires Run(cfg, later).slots[n] == Run(cfg, events).slots[n]
    ensures Stands(cfg, later, b, q, n, other, j)
  {
    hide Run, At;
  }

  lemma FinishedMeans(c: Context, s: Slot, b: Ballot, q: QuorumSet)
    requires Finished(c, s, b, q)
    ensures s.externalized && s.ballot == b && Lone(c, s, b, q) && Key(b, KindOf(3), c.self) in s.stmts
  {
    KindOfRank(3);
  }

  /** One node takes in the next statement of the other, which stands further on or level. */
  lemma Turn(cfg: Config, events: seq<Event>, b: Ballot, q: QuorumSet, n: NodeID, other: NodeID, j: nat, i: nat) returns (later: seq<Event>)
    requires Pair(cfg, q, n, other) && b.counter < MAX_COUNTER && j <= i && j < 3
    requires Stands(cfg, events, b, q, n, other, j) && Stands(cfg, events, b, q, other, n, i)
    ensures Stands(cfg, later, b, q, n, other, j + 1) && Stands(cfg, later, b, q, other, n, i)
  {
    hide Run, At, Trusts, ContextOK;
    SpokenFor(cfg, events, b, q, other, n, i, j);
    later := Exchange(cfg, events, b, q, n, other, j);
  }

  /** So it is with a threshold of two over the two nodes. */
  lemma ThresholdTwoExternalizes(cfg: Config, p: NodeID, r: NodeID, v: Value) returns (events: seq<Event>)
    requires ConfigOK(cfg) && p != r && {p, r} <= cfg.correct
    requires Local(cfg.context(p)) == QuorumSet(2, [p, r]) && Accepts(cfg.context(p), r)
    requires Local(cfg.context(r)) == QuorumSet(2, [p, r]) && Accepts(cfg.context(r), p)
    ensures forall n :: n in {p, r} ==> Run(cfg, events).slots[n].externalized && Run(cfg, events).slots[n].ballot.value == v
  {
    hide Run, Needs, Accepts;
    BothNeeded(p, r);
    assert p in cfg.correct && r in cfg.correct;
    events := PairExternalizes(cfg, QuorumSet(2, [p, r]), p, r, v);
  }
}
