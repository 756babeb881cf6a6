/** The slot as an object: envelopes and proposals update its fields in place, and advancing
    it re-enters itself through the node's own envelopes. Every method is tied to the
    transition function of the same step. */
module SlotObject {
  import M = SlotModel
  import opened SlotSafety
  import opened SlotQuiet
  import Moves = SlotMoves
  import Events = SlotEvents

  class Slot {
    const c: M.Context
    var ballot: M.Ballot
    var pristine: bool
    var heard: bool
    var committed: bool
    var externalized: bool
    var inAdvance: bool
    var runAdvance: bool
    var stmts: M.Statements
    var emitted: seq<M.Envelope>
    var crashed: bool

    function State(): M.Slot
      reads this
    {
      M.Slot(ballot, pristine, heard, committed, externalized, stmts, emitted, runAdvance, crashed)
    }

    /** Between events: at rest, and not in the middle of an advancement. */
    ghost predicate Valid()
      reads this
    {
      M.ContextOK(c) && !inAdvance && Inv(c, State()) && (!crashed ==> Resting(c, State()))
    }

    constructor (context: M.Context)
      requires M.ContextOK(context)
      ensures Valid() && c == context && State() == M.Initial(context)
    {
      c := context;
      ballot := M.Ballot(0, context.unset);
      pristine, heard := true, true;
      committed, externalized := false, false;
      inAdvance, runAdvance, crashed := false, false, false;
      stmts, emitted := map[], [];
      new;
      InitialResting(c);
    }

    /** An envelope from the network. */
    method ReceiveEnvelope(env: M.Envelope) returns (answers: seq<M.Answer>)
      requires Valid() && !crashed && M.Genuine(c, State(), env)
      modifies this
      ensures Valid() && Forward(c, old(State()), State())
      ensures M.Honest(c, old(State()))
      ensures M.Reply(State(), answers) == M.Deliver(c, old(State()), env)
      ensures !crashed ==>
                && (Events.OnRecord(State(), env) <==> Events.OnRecord(old(State()), env) || Events.Storable(c, old(State()), env))
                && Events.Answered(c, old(State()), env, answers)
    {
      hide Inv, Quiet, M.Honest, M.Accept, M.ContextOK, Events.Storable, Events.Answered;
      InvIsHonest(c, State());
      Events.DeliverRecordsIff(c, State(), env);
      Events.DeliverAnswers(c, State(), env);
      AcceptInv(c, State(), env);
      M.AcceptHonest(c, State(), env);
      M.AcceptEffect(c, State(), env);
      ghost var o := M.Accept(c, State(), env);
      if o.stored {
        AdvanceKeeps(c, o.slot);
        AdvanceRests(c, o.slot);
        ForwardTransitive(c, State(), o.slot, M.Advance(c, o.slot));
      } else {
        StillResting(c, State(), o.slot);
      }
      answers := ProcessEnvelope(env);
    }

    /** A value proposed by the local node. */
    method PrepareValue(value: M.Value, forceBump: bool) returns (accepted: bool)
      requires Valid() && !crashed
      modifies this
      ensures Valid() && Forward(c, old(State()), State())
      ensures accepted <==> !old(committed)
      ensures M.Honest(c, old(State()))
      ensures State() == M.Propose(c, old(State()), value, forceBump)
      ensures accepted && !crashed ==>
                M.Key(M.Ballot(Moves.ProposalCounter(c, old(State()), value, forceBump), value), M.PREPARING, c.self) in stmts
    {
      hide Inv, Quiet, M.Honest, M.MayBump, M.ContextOK, M.Advance, Moves.ProposalCounter;
      InvIsHonest(c, State());
      if committed {
        return false;
      }
      Moves.ProposeSays(c, State(), value, forceBump);
      ghost var s := State();
      if forceBump || (!pristine && c.rank(ballot.counter, value) < c.rank(ballot.counter, ballot.value)) {
        BumpToBallot(M.Ballot(M.Next(ballot.counter), value));
      } else {
        BumpToBallot(M.Ballot(ballot.counter, value));
      }
      BumpKeeps(c, s, M.ProposedBallot(c, s, value, forceBump));
      if crashed {
        return true;
      }
      BumpHonest(c, s, M.ProposedBallot(c, s, value, forceBump));
      AdvanceKeeps(c, State());
      AdvanceRests(c, State());
      ForwardTransitive(c, s, State(), M.Advance(c, State()));
      AdvanceSlot();
      accepted := true;
    }

    method ProcessEnvelope(env: M.Envelope) returns (answers: seq<M.Answer>)
      requires M.ContextOK(c) && !crashed
      requires !inAdvance ==> !runAdvance && M.Honest(c, State()) && M.Genuine(c, State(), env)
      modifies this
      ensures inAdvance == old(inAdvance)
      ensures old(inAdvance) ==>
                var o := M.Accept(c, old(State()), env);
                answers == o.answers && State() == if o.stored then o.slot.(again := true) else o.slot
      ensures !old(inAdvance) ==> M.Reply(State(), answers) == M.Deliver(c, old(State()), env)
      decreases if inAdvance then 0 else 2, 2
    {
      hide M.Honest, M.MayBump, M.Advance, M.Contradicted, M.HasCommitted;
      var st, n, b := env.statement, env.node, env.statement.ballot;
      if !inAdvance {
        M.AcceptHonest(c, State(), env);
      }
      if !c.validValue(n, b.value) {
        return [M.INVALID];
      }
      if !committed && st.kind == M.PREPARING {
        if !c.validBallot(n, b) {
          return [M.INVALID, M.VALID];
        }
        if pristine || M.Less(c, ballot, b) {
          BumpToBallot(b);
          if crashed {
            return [];
          }
        }
        stmts := stmts[M.Key(b, st.kind, n) := st];
        AdvanceSlot();
      } else if !committed && st.kind == M.PREPARED {
        stmts := stmts[M.Key(b, st.kind, n) := st];
        AdvanceSlot();
      } else if !committed && st.kind == M.COMMITTING {
        if M.Contradicted(c, stmts, n, b) {
          return [M.INVALID];
        }
        if M.Key(b, M.PREPARED, n) !in stmts {
          return [M.STATEMENTS_MISSING];
        }
        stmts := stmts[M.Key(b, st.kind, n) := st];
        AdvanceSlot();
      } else if st.kind == M.COMMITTED {
        if M.HasCommitted(stmts, n) {
          return [M.INVALID];
        }
        stmts := stmts[M.Key(b, st.kind, n) := st];
        AdvanceSlot();
      } else {
        EmitEnvelope(M.OwnStatement(c, ballot, M.COMMITTED));
      }
      answers := [M.VALID];
    }

    method EmitEnvelope(st: M.Statement)
      modifies `emitted
      ensures State() == M.Emit(c, old(State()), st)
    {
      emitted := emitted + [M.Envelope(c.self, st)];
    }

    /** The checks against every own PREPARING run over the statement map. */
    method BumpToBallot(b: M.Ballot)
      requires M.ContextOK(c)
      modifies this
      ensures State() == M.BumpToBallot(c, old(State()), b)
      ensures inAdvance == old(inAdvance)
    {
      var ok := !committed && !externalized;
      var bs := c.order(M.Known(stmts));
      for i := 0 to |bs|
        invariant State() == old(State()) && inAdvance == old(inAdvance)
        invariant ok <==> !committed && !externalized &&
                          forall j :: 0 <= j < i && M.Recorded(c, stmts, bs[j], M.PREPARING) ==> !M.Less(c, b, bs[j])
      {
        if M.Recorded(c, stmts, bs[i], M.PREPARING) && M.Less(c, b, bs[i]) {
          ok := false;
        }
      }
      ok := ok && (pristine || !M.Less(c, b, ballot));
      assert ok <==> M.MayBump(c, State(), b) by {
        OwnPreparingChecked(c, stmts, b, bs);
      }
      if ok {
        ballot := b;
        pristine := false;
        heard := false;
      } else {
        crashed := true;
      }
    }

    /** The node processes an own statement while it is advancing. */
    method RecordStatement(st: M.Statement)
      requires M.ContextOK(c) && inAdvance && !crashed
      modifies this
      ensures inAdvance && State() == M.Record(c, old(State()), st)
      decreases 0, 3
    {
      hide M.Accept;
      var answers := ProcessEnvelope(M.Envelope(c.self, st));
      if M.VALID in answers {
        EmitEnvelope(st);
      }
    }

    method AttemptPreparing()
      requires M.ContextOK(c) && inAdvance && !crashed
      modifies this
      ensures inAdvance && State() == M.AttemptPreparing(c, old(State()))
      decreases 0, 4
    {
      hide M.Record;
      if !M.Recorded(c, stmts, ballot, M.PREPARING) {
        RecordStatement(M.PreparingStatement(c, State()));
      }
    }

    method AttemptPrepared(b: M.Ballot)
      requires M.ContextOK(c) && inAdvance && !crashed
      modifies this
      ensures inAdvance && State() == M.AttemptPrepared(c, old(State()), b)
      decreases 0, 4
    {
      hide M.Record;
      if !M.Recorded(c, stmts, b, M.PREPARED) {
        RecordStatement(M.OwnStatement(c, b, M.PREPARED));
      }
    }

    method AttemptCommitting()
      requires M.ContextOK(c) && inAdvance && !crashed
      modifies this
      ensures inAdvance && State() == M.AttemptCommitting(c, old(State()))
      decreases 0, 4
    {
      hide M.Record;
      if !M.Recorded(c, stmts, ballot, M.COMMITTING) {
        RecordStatement(M.OwnStatement(c, ballot, M.COMMITTING));
      }
    }

    method AttemptCommitted()
      requires M.ContextOK(c) && inAdvance && !crashed
      modifies this
      ensures inAdvance && State() == M.AttemptCommitted(c, old(State()))
      decreases 0, 4
    {
      hide M.Record;
      if !M.Recorded(c, stmts, ballot, M.COMMITTED) {
        committed := true;
        RecordStatement(M.OwnStatement(c, ballot, M.COMMITTED));
      }
    }

    /** The votes on the current ballot. */
    method Vote()
      requires M.ContextOK(c) && M.Honest(c, State()) && inAdvance && !crashed && !pristine && !committed
      modifies this
      ensures inAdvance && State() == M.Vote(c, old(State()))
      decreases 0, 5
    {
      hide M.AttemptPreparing, M.AttemptPrepared, M.AttemptCommitting, M.AttemptCommitted;
      hide M.IsPrepared, M.IsPreparedConfirmed, M.IsCommitted, M.Honest, M.Progress;
      ghost var s := State();
      M.PreparingProgress(c, s);
      AttemptPreparing();
      M.ProgressHonest(c, s, State());
      M.PreparedProgress(c, State(), ballot);
      if M.IsPrepared(c, stmts, ballot.value, ballot) {
        ghost var s1 := State();
        AttemptPrepared(ballot);
        M.ProgressHonest(c, s1, State());
      }
      if M.IsPreparedConfirmed(c, stmts, ballot) {
        M.CommittingProgress(c, State());
        AttemptCommitting();
        if M.IsCommitted(c, stmts, ballot) {
          AttemptCommitted();
        }
      }
    }

    /** One known ballot: follow a confirmed value, then a prepared ballot. */
    method TryBump(b: M.Ballot)
      requires M.ContextOK(c) && inAdvance && !crashed
      modifies this
      ensures inAdvance && State() == M.TryBump(c, old(State()), b)
      ensures old(Inv(c, State())) && !old(committed) && !crashed ==> Moves.Visited(c, old(State()), b, State())
      decreases 0, 5
    {
      hide M.AttemptPrepared, M.AttemptCommitted, M.IsPrepared, M.IsCommittedConfirmed, M.MayBump, Inv, Moves.Visited;
      if Inv(c, State()) && !committed {
        Moves.VisitMoves(c, State(), b);
      }
      if M.IsCommittedConfirmed(c, stmts, b.value) {
        BumpToBallot(M.ExternalizeBallot(c, State(), b.value));
        if crashed {
          return;
        }
        ghost var t := State();
        AttemptCommitted();
        CommitDoesNotFail(c, t);
      }
      if M.IsPrepared(c, stmts, ballot.value, b) {
        if M.Less(c, ballot, b) {
          BumpToBallot(b);
          runAdvance := true;
        } else {
          AttemptPrepared(b);
        }
      }
    }

    /** The part of a round about the current ballot. */
    method Decide()
      requires M.ContextOK(c) && M.Honest(c, State()) && inAdvance && !crashed
      modifies this
      ensures inAdvance && !crashed && State() == M.Decide(c, old(State()))
      decreases 0, 6
    {
      hide M.Vote, M.Honest, M.IsCommittedConfirmed;
      if !pristine {
        if !committed {
          VoteDoesNotFail(c, State());
          Vote();
        } else if M.IsCommittedConfirmed(c, stmts, ballot.value) {
          externalized := true;
        }
      }
    }

    /** The part of a round that walks the known ballots. */
    method TryBumps()
      requires M.ContextOK(c) && inAdvance && !crashed
      modifies this
      ensures inAdvance && State() == M.TryBumps(c, old(State()), c.order(M.Known(old(stmts))))
      decreases 0, 6
    {
      hide M.TryBump, M.Known, M.ContextOK;
      var bs := c.order(M.Known(stmts));
      ghost var s := State();
      var i := 0;
      assert bs[0..] == bs;
      while i < |bs| && !committed && !externalized && !crashed
        invariant 0 <= i <= |bs| && inAdvance
        invariant M.TryBumps(c, State(), bs[i..]) == M.TryBumps(c, s, bs)
        decreases |bs| - i
      {
        assert bs[i..][1..] == bs[i + 1..];
        TryBump(bs[i]);
        i := i + 1;
      }
    }

    /** One round. */
    method Round()
      requires M.ContextOK(c) && M.Honest(c, State()) && inAdvance && !crashed
      modifies this
      ensures inAdvance && State() == M.Pass(c, old(State()))
      decreases 0, 7
    {
      hide M.Decide, M.TryBumps, M.Honest, M.HearsQuorum, M.Known, M.ContextOK;
      Decide();
      TryBumps();
      if !crashed && !heard && M.HearsQuorum(c, State()) {
        heard := true;
      }
    }

    /** Advances the slot; a call made while the slot is being advanced only asks for another round. */
    method AdvanceSlot()
      requires M.ContextOK(c) && !crashed
      requires !inAdvance ==> !runAdvance && M.Honest(c, State())
      modifies this
      ensures inAdvance == old(inAdvance)
      ensures old(inAdvance) ==> State() == old(State()).(again := true)
      ensures !old(inAdvance) ==> State() == M.Advance(c, old(State()))
      decreases if inAdvance then 0 else 1, if inAdvance then 1 else M.Measure(c, State())
    {
      hide M.Pass, M.Honest, M.Measure, M.ContextOK;
      if inAdvance {
        runAdvance := true;
        return;
      }
      ghost var s := State();
      inAdvance := true;
      Round();
      inAdvance := false;
      if runAdvance && !crashed {
        M.PassProgress(c, s);
        M.MeasureIgnoresFlags(c, State(), State().(again := false));
        runAdvance := false;
        AdvanceSlot();
      }
    }
  }

  /** A slot that only sent its COMMITTED again is still at rest. */
  lemma StillResting(c: M.Context, s: M.Slot, t: M.Slot)
    requires Resting(c, s) && Inv(c, t)
    requires t == s || t == s.(crashed := true) || t == M.Emit(c, s, M.OwnStatement(c, s.ballot, M.COMMITTED))
    ensures !t.crashed ==> Resting(c, t)
  {
    hide Inv, M.IsPrepared, M.IsPreparedConfirmed, M.IsCommitted, M.IsCommittedConfirmed, M.Contradicted;
    M.SameHearing(c, s, t);
  }

  lemma OwnPreparingChecked(c: M.Context, stmts: M.Statements, b: M.Ballot, bs: seq<M.Ballot>)
    requires forall x :: x in bs <==> x in M.Known(stmts)
    ensures (forall j :: 0 <= j < |bs| && M.Recorded(c, stmts, bs[j], M.PREPARING) ==> !M.Less(c, b, bs[j])) <==>
            (forall k :: k in stmts && k.kind == M.PREPARING && k.node == c.self ==> !M.Less(c, b, k.ballot))
  {
    hide M.Less;
    if forall j :: 0 <= j < |bs| && M.Recorded(c, stmts, bs[j], M.PREPARING) ==> !M.Less(c, b, bs[j]) {
      forall k | k in stmts && k.kind == M.PREPARING && k.node == c.self ensures !M.Less(c, b, k.ballot) {
        assert k.ballot in bs;
        assert k == M.Key(k.ballot, M.PREPARING, c.self);
      }
    }
  }

  lemma CommitDoesNotFail(c: M.Context, s: M.Slot)
    requires M.ContextOK(c) && !s.crashed
    ensures !M.AttemptCommitted(c, s).crashed
  {
  }

  lemma VoteDoesNotFail(c: M.Context, s: M.Slot)
    requires M.ContextOK(c) && M.Honest(c, s) && !s.committed && !s.crashed && !s.pristine
    ensures !M.Vote(c, s).crashed
  {
    hide M.AttemptPreparing, M.AttemptPrepared, M.AttemptCommitting, M.AttemptCommitted, M.Progress, M.Honest;
    hide M.IsPrepared, M.IsPreparedConfirmed, M.IsCommitted;
    M.PreparingProgress(c, s);
    var s1 := M.AttemptPreparing(c, s);
    M.ProgressHonest(c, s, s1);
    M.PreparedProgress(c, s1, s1.ballot);
    M.SelfProgress(c, s1);
    var s2 := if M.IsPrepared(c, s1.stmts, s1.ballot.value, s1.ballot) then M.AttemptPrepared(c, s1, s1.ballot) else s1;
    M.ProgressHonest(c, s1, s2);
    M.CommittingProgress(c, s2);
    CommitDoesNotFail(c, M.AttemptCommitting(c, s2));
  }
}
