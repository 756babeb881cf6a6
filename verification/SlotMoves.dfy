/** Where a slot moves, what it proposes and says, and when it has heard from a quorum, said without
    the transitions. */
module SlotMoves {
  import opened Options
  import opened Quorums
  import opened SlotModel
  import opened SlotSafety
  import opened SlotQuiet
  import opened SlotAssertions
  import opened SlotVotes

  // ---------------------------------------------------------------- following a confirmed value

  /** A ballot of the value, not below the current one nor below any COMMITTED for the value. */
  ghost predicate Reaches(c: Context, s: Slot, v: Value, y: Ballot)
  {
    && y.value == v && !Less(c, y, s.ballot)
    && forall x: Ballot, n :: x.value == v && Key(x, COMMITTED, n) in s.stmts ==> !Less(c, y, x)
  }

  lemma CandidateIsLeast(c: Context, b: Ballot, v: Value, y: Ballot)
    requires y.value == v && !Less(c, y, b)
    ensures var x := Ballot(b.counter, v);
            var x' := if Less(c, x, b) then Ballot(Next(x.counter), v) else x;
            !Less(c, x', b) ==> !Less(c, y, x')
  {
  }

  lemma ExternalizesLeast(c: Context, s: Slot, v: Value)
    requires ContextOK(c) && !Less(c, ExternalizeBallot(c, s, v), s.ballot)
    ensures Reaches(c, s, v, ExternalizeBallot(c, s, v))
    ensures forall y :: Reaches(c, s, v, y) ==> !Less(c, y, ExternalizeBallot(c, s, v))
  {
    var x := Ballot(s.ballot.counter, v);
    var b' := if Less(c, x, s.ballot) then Ballot(Next(x.counter), v) else x;
    var bs := c.order(Known(s.stmts));
    RaiseIsLargest(c, s.stmts, b', bs);
    ExternalizeBallotBelowIff(c, s, v);
    WrapsIff(c, s.ballot, v);
    assert forall k :: k in s.stmts ==> k.ballot in Known(s.stmts);
    var r := ExternalizeBallot(c, s, v);
    assert r == RaiseToCommitted(c, s.stmts, b', bs);
    hide RaiseToCommitted, ExternalizeBallot;
    forall x: Ballot, n | x.value == v && Key(x, COMMITTED, n) in s.stmts ensures !Less(c, r, x) {
      assert Key(x, COMMITTED, n).ballot in bs;
    }
    forall y | Reaches(c, s, v, y) ensures !Less(c, y, r) {
      CandidateIsLeast(c, s.ballot, v, y);
    }
  }

  lemma WrapsIff(c: Context, b: Ballot, v: Value)
    ensures var x := Ballot(b.counter, v);
            var x' := if Less(c, x, b) then Ballot(Next(x.counter), v) else x;
            Less(c, x', b) <==> Wraps(c, b, v)
  {
  }

  /** Following a confirmed value, the slot commits at the least ballot of that value that is not
      below its own nor below any COMMITTED for the value on record. */
  lemma FollowsToLeast(c: Context, s: Slot, v: Value)
    requires ContextOK(c) && Inv(c, s) && !s.committed && !s.crashed && IsCommittedConfirmed(c, s.stmts, v)
    ensures var t := FollowConfirmed(c, s, v);
            !t.crashed ==>
              && t.committed && Reaches(c, s, v, t.ballot)
              && forall y :: Reaches(c, s, v, y) ==> !Less(c, y, t.ballot)
  {
    var bx := ExternalizeBallot(c, s, v);
    var u := BumpToBallot(c, s, bx);
    if !u.crashed {
      NoBumpDown(c, s, bx, v);
      ExternalizesLeast(c, s, v);
      BumpKeeps(c, s, bx);
      InvIsHonest(c, u);
      CommitEffect(c, u);
    }
    hide Inv, IsCommittedConfirmed, ExternalizeBallot, AttemptCommitted, Less, Reaches, Keeps, MayBump;
  }

  lemma NoBumpDown(c: Context, s: Slot, bx: Ballot, v: Value)
    requires Inv(c, s) && MayBump(c, s, bx) && bx == ExternalizeBallot(c, s, v)
    ensures !Less(c, bx, s.ballot)
  {
    ExternalizeBallotBelowIff(c, s, v);
    PristineHasRoom(c, s, v);
  }

  // ---------------------------------------------------------------- visiting a known ballot

  /** The ballot counts as prepared: the node said so, or no local quorum avoids those who said so,
      or a quorum has PREPARING statements on record that stand. */
  ghost predicate PreparedOn(c: Context, stmts: Statements, current: Value, b: Ballot)
  {
    || Key(b, PREPARED, c.self) in stmts
    || (forall others :: HasQuorum(Local(c), others) ==> exists n :: n in others && Key(b, PREPARED, n) in stmts)
    || exists u :: RatifiedBy(c, stmts, current, b, u)
  }

  lemma PreparedOnIff(c: Context, stmts: Statements, current: Value, b: Ballot)
    ensures IsPrepared(c, stmts, current, b) <==> PreparedOn(c, stmts, current, b)
  {
    PreparedMeans(c, stmts, current, b);
    hide HasQuorum, RatifiedBy, IsPrepared;
  }

  /** The value counts as confirmed: a quorum said COMMITTED for it. */
  ghost predicate ConfirmedOn(c: Context, stmts: Statements, v: Value)
  {
    exists u :: CommittedQuorum(c, stmts, v, u)
  }

  lemma ConfirmedOnIff(c: Context, s: Slot, v: Value)
    requires ContextOK(c) && Inv(c, s)
    ensures IsCommittedConfirmed(c, s.stmts, v) <==> ConfirmedOn(c, s.stmts, v)
  {
    InvOneCommitted(c, s);
    CommittedConfirmedMeans(c, s.stmts, v);
  }

  /** What visiting a known ballot makes of an uncommitted slot: a confirmed value is followed to the
      least ballot of it that can be reached, a ballot prepared above is moved to, one prepared at or
      below is said to be prepared, and nothing else happens. */
  ghost predicate Visited(c: Context, s: Slot, b: Ballot, t: Slot)
  {
    if ConfirmedOn(c, s.stmts, b.value) then
      t.committed && Reaches(c, s, b.value, t.ballot) && forall y :: Reaches(c, s, b.value, y) ==> !Less(c, y, t.ballot)
    else if PreparedOn(c, s.stmts, s.ballot.value, b) then
      if Less(c, s.ballot, b) then t == s.(ballot := b, pristine := false, heard := false, again := true)
      else !t.committed && t.ballot == s.ballot && Key(b, PREPARED, c.self) in t.stmts && Grows(c, s, t)
    else t == s
  }

  lemma VisitMoves(c: Context, s: Slot, b: Ballot)
    requires ContextOK(c) && Inv(c, s) && !s.committed && !s.crashed
    ensures !TryBump(c, s, b).crashed ==> Visited(c, s, b, TryBump(c, s, b))
  {
    ConfirmedOnIff(c, s, b.value);
    PreparedOnIff(c, s.stmts, s.ballot.value, b);
    if ConfirmedOn(c, s.stmts, b.value) {
      FollowsToLeast(c, s, b.value);
      FollowConfirmedKeeps(c, s, b.value);
      CommittedVisitStays(c, FollowConfirmed(c, s, b.value), b);
    } else {
      PreparedKeeps(c, s, b);
      PreparedRecorded(c, s, b);
    }
    hide Inv, ContextOK, IsPrepared, IsCommittedConfirmed, PreparedOn, ConfirmedOn, Less, Reaches, AttemptPrepared, MayBump, Grows, Forward;
  }

  lemma CommittedVisitStays(c: Context, w: Slot, b: Ballot)
    requires ContextOK(c) && (!w.crashed ==> Inv(c, w) && w.committed)
    ensures var t := FollowPrepared(c, w, b); !w.crashed && !t.crashed ==> t.committed && t.ballot == w.ballot
  {
    if !w.crashed {
      PreparedAfterCommitKeeps(c, w, b);
    }
    hide Inv, ContextOK, IsPrepared, Less, AttemptPrepared, Grows;
  }

  lemma PreparedRecorded(c: Context, s: Slot, b: Ballot)
    requires ContextOK(c) && !s.committed && !s.crashed
    ensures Key(b, PREPARED, c.self) in AttemptPrepared(c, s, b).stmts
  {
    hide Record;
    if !Recorded(c, s.stmts, b, PREPARED) {
      RecordEffect(c, s, OwnStatement(c, b, PREPARED));
    }
  }

  // ---------------------------------------------------------------- proposals

  /** A slot that is advanced with a ballot and uncommitted says PREPARING for that ballot. */
  lemma AdvancePrepares(c: Context, s: Slot)
    requires ContextOK(c) && Inv(c, s) && Honest(c, s) && !s.committed && !s.crashed && !s.again && !s.pristine
    ensures Key(s.ballot, PREPARING, c.self) in Advance(c, s).stmts
  {
    hide Pass, Inv, Honest, ContextOK, Measure, Forward;
    PassPrepares(c, s);
    PassKeeps(c, s);
    var p := Pass(c, s);
    if p.again && !p.crashed {
      var q := p.(again := false);
      PassProgress(c, s);
      InvExternalized(c, p);
      KeepsFlags(c, p, q);
      InvIsHonest(c, q);
      AdvanceKeeps(c, q);
    }
  }

  lemma PassPrepares(c: Context, s: Slot)
    requires ContextOK(c) && Inv(c, s) && !s.committed && !s.crashed && !s.pristine
    ensures Key(s.ballot, PREPARING, c.self) in Pass(c, s).stmts
  {
    hide Inv, ContextOK, Vote, TryBumps, HearsQuorum, Forward, QuorumOf, Known;
    VoteRestsOnQuorums(c, s);
    VoteKeeps(c, s);
    var s1 := Decide(c, s);
    TryBumpsKeeps(c, s1, c.order(Known(s1.stmts)));
  }

  /** The counter a proposal is made with: the next one exactly when forced, or when the slot has a
      ballot whose value ranks above the proposed one. */
  function ProposalCounter(c: Context, s: Slot, v: Value, force: bool): uint32
  {
    if force || (!s.pristine && Less(c, Ballot(s.ballot.counter, v), s.ballot)) then Next(s.ballot.counter) else s.ballot.counter
  }

  /** A proposal that does not fail puts the proposed value forward: the slot has said PREPARING for
      it, with the counter just named, and has not gone below that ballot. */
  lemma ProposeSays(c: Context, s: Slot, v: Value, force: bool)
    requires ContextOK(c) && Inv(c, s) && Honest(c, s) && !s.committed && !s.crashed && !s.again
    ensures var t, b := Propose(c, s, v, force), Ballot(ProposalCounter(c, s, v, force), v);
            !t.crashed ==>
              && Key(b, PREPARING, c.self) in t.stmts && Envelope(c.self, t.stmts[Key(b, PREPARING, c.self)]) in t.emitted
              && !Less(c, t.ballot, b)
  {
    var b := ProposedBallot(c, s, v, force);
    assert b == Ballot(ProposalCounter(c, s, v, force), v);
    hide Inv, ContextOK, Honest, Advance, Less, MayBump, ProposedBallot, ProposalCounter;
    var u := BumpToBallot(c, s, b);
    BumpKeeps(c, s, b);
    if !u.crashed {
      BumpHonest(c, s, b);
      AdvancePrepares(c, u);
      AdvanceKeeps(c, u);
      OwnIsSent(c, Advance(c, u), Key(b, PREPARING, c.self));
    }
  }

  lemma OwnIsSent(c: Context, s: Slot, k: Key)
    requires Inv(c, s) && k in s.stmts && k.node == c.self
    ensures Envelope(c.self, s.stmts[k]) in s.emitted && s.stmts[k].ballot == k.ballot && s.stmts[k].kind == k.kind
    ensures s.stmts[k].qset == c.localQSet
  {
  }

  /** What a new PREPARING says: it excepts exactly the ballots the node has said COMMITTING for, and
      names the least ballot of the same value the node has said PREPARED for, if any. */
  lemma PreparingSays(c: Context, s: Slot)
    requires ContextOK(c) && Inv(c, s) && !s.committed && !s.crashed && !s.pristine
    requires Key(s.ballot, PREPARING, c.self) !in s.stmts
    ensures Key(s.ballot, PREPARING, c.self) in AttemptPreparing(c, s).stmts
    ensures var st := AttemptPreparing(c, s).stmts[Key(s.ballot, PREPARING, c.self)];
            && (forall b :: b in st.excepted <==> Key(b, COMMITTING, c.self) in s.stmts)
            && (st.prepared.Some? ==> st.prepared.value.value == s.ballot.value && Key(st.prepared.value, PREPARED, c.self) in s.stmts)
            && (forall b: Ballot :: b.value == s.ballot.value && Key(b, PREPARED, c.self) in s.stmts ==>
                  st.prepared.Some? && !Less(c, b, st.prepared.value))
  {
    var st := PreparingStatement(c, s);
    RecordEffect(c, s, st);
    LeastPreparedIs(c, s.stmts, s.ballot.value, c.order(Known(s.stmts)));
    hide Record, Less, LeastPrepared, Inv;
    forall b ensures b in OwnCommitting(c, s.stmts) <==> Key(b, COMMITTING, c.self) in s.stmts {
      if Key(b, COMMITTING, c.self) in s.stmts {
        assert Key(b, COMMITTING, c.self).ballot == b;
      }
    }
    assert forall k :: k in s.stmts ==> k.ballot in Known(s.stmts);
    forall b: Ballot | b.value == s.ballot.value && Key(b, PREPARED, c.self) in s.stmts
      ensures st.prepared.Some? && !Less(c, b, st.prepared.value)
    {
      assert Key(b, PREPARED, c.self).ballot in Known(s.stmts);
    }
  }

  // ---------------------------------------------------------------- hearing from a quorum

  /** The node's most advanced statement about the ballot. */
  ghost predicate MostAdvanced(stmts: Statements, b: Ballot, n: NodeID, kind: Kind)
  {
    && Key(b, kind, n) in stmts
    && forall higher :: higher != kind && Key(b, higher, n) in stmts ==> KindRank(higher) < KindRank(kind)
  }

  function KindRank(kind: Kind): nat
  {
    match kind
    case PREPARING => 0
    case PREPARED => 1
    case COMMITTING => 2
    case COMMITTED => 3
  }

  /** `u` satisfies the local quorum set, every member has spoken about the ballot, in whatever kind,
      and `u` satisfies the quorum set its most advanced statement names. */
  ghost predicate SpokenBy(c: Context, stmts: Statements, b: Ballot, u: set<NodeID>)
  {
    && HasQuorum(Local(c), u)
    && forall n :: n in u ==> exists kind :: MostAdvanced(stmts, b, n, kind) && HasQuorum(c.lookup(stmts[Key(b, kind, n)].qset), u)
  }

  lemma LatestIs(stmts: Statements, b: Ballot, n: NodeID, kind: Kind)
    requires MostAdvanced(stmts, b, n, kind)
    ensures n in Speakers(stmts, b) && Latest(stmts, b, n) == stmts[Key(b, kind, n)]
  {
    assert Key(b, kind, n).node == n;
  }

  lemma SpeakerHasMost(stmts: Statements, b: Ballot, n: NodeID) returns (kind: Kind)
    requires n in Speakers(stmts, b)
    ensures MostAdvanced(stmts, b, n, kind)
  {
    SpeakersHaveStatements(stmts, b, n);
    kind := if Key(b, COMMITTED, n) in stmts then COMMITTED
            else if Key(b, COMMITTING, n) in stmts then COMMITTING
            else if Key(b, PREPARED, n) in stmts then PREPARED
            else PREPARING;
  }

  /** The slot hears from a quorum exactly when a self-sufficient quorum has spoken about its ballot. */
  lemma HearingMeans(c: Context, s: Slot)
    ensures HearsQuorum(c, s) <==> exists u :: SpokenBy(c, s.stmts, s.ballot, u)
  {
    var stmts, b := s.stmts, s.ballot;
    var votes := map n | n in Speakers(stmts, b) :: c.lookup(Latest(stmts, b, n).qset);
    TransitiveQuorumIff(Local(c), votes);
    hide HasQuorum, IsQuorumTransitive, Speakers, MostAdvanced;
    forall u ensures SpokenBy(c, stmts, b, u) <==> SelfSufficient(u, votes) && HasQuorum(Local(c), u) {
      forall n ensures (n in votes && HasQuorum(votes[n], u)) <==>
                       exists kind :: MostAdvanced(stmts, b, n, kind) && HasQuorum(c.lookup(stmts[Key(b, kind, n)].qset), u)
      {
        SpeakerIff(c, stmts, b, n, u);
      }
    }
  }

  lemma SpeakerIff(c: Context, stmts: Statements, b: Ballot, n: NodeID, u: set<NodeID>)
    ensures (n in Speakers(stmts, b) && HasQuorum(c.lookup(Latest(stmts, b, n).qset), u)) <==>
            exists kind :: MostAdvanced(stmts, b, n, kind) && HasQuorum(c.lookup(stmts[Key(b, kind, n)].qset), u)
  {
    hide HasQuorum;
    if n in Speakers(stmts, b) {
      var kind := SpeakerHasMost(stmts, b, n);
      LatestIs(stmts, b, n, kind);
    }
    forall kind | MostAdvanced(stmts, b, n, kind) ensures n in Speakers(stmts, b) && Latest(stmts, b, n) == stmts[Key(b, kind, n)] {
      LatestIs(stmts, b, n, kind);
    }
  }

  /** After a round the slot has heard when a quorum has spoken about its ballot; it has heard only
      then, or because it had heard and kept its ballot. */
  lemma PassHears(c: Context, s: Slot)
    requires ContextOK(c) && Inv(c, s) && !s.crashed
    ensures var t := Pass(c, s);
            !t.crashed ==>
              && ((exists u :: SpokenBy(c, t.stmts, t.ballot, u)) ==> t.heard)
              && (t.heard ==> (s.heard && t.ballot == s.ballot) || exists u :: SpokenBy(c, t.stmts, t.ballot, u))
  {
    var s1 := Decide(c, s);
    DecideHears(c, s);
    DecideKeeps(c, s);
    var s2 := TryBumps(c, s1, c.order(Known(s1.stmts)));
    TryBumpsHear(c, s1, c.order(Known(s1.stmts)));
    HearingMeans(c, s2);
    SameHearing(c, s2, Pass(c, s));
    hide Inv, ContextOK, Decide, TryBumps, HearsQuorum, SpokenBy, Keeps;
  }

  /** Hearing carries over only together with the ballot. */
  ghost predicate HeardBefore(s: Slot, t: Slot)
  {
    t.heard ==> s.heard && t.ballot == s.ballot
  }

  lemma StoredHears(c: Context, s: Slot, st: Statement)
    requires ContextOK(c) && !s.committed && !s.crashed && st.kind != COMMITTED
    requires st.kind == PREPARING ==> st.ballot == s.ballot && !s.pristine
    ensures Record(c, s, st).heard == s.heard && Record(c, s, st).ballot == s.ballot
  {
    RecordEffect(c, s, st);
    hide Record;
  }

  lemma DecideHears(c: Context, s: Slot)
    requires ContextOK(c) && Inv(c, s) && !s.crashed
    ensures HeardBefore(s, Decide(c, s))
  {
    if !s.pristine && !s.committed {
      VoteHears(c, s);
    }
    hide Vote, IsCommittedConfirmed;
  }

  lemma VoteHears(c: Context, s: Slot)
    requires ContextOK(c) && Inv(c, s) && !s.crashed && !s.pristine && !s.committed
    ensures HeardBefore(s, Vote(c, s))
  {
    hide Record, Inv, IsPrepared, IsPreparedConfirmed, IsCommitted, PreparingStatement, Grows, Forward;
    PreparingKeeps(c, s);
    var s1 := AttemptPreparing(c, s);
    PreparingSt(c, s);
    if !Recorded(c, s.stmts, s.ballot, PREPARING) {
      StoredHears(c, s, PreparingStatement(c, s));
    }
    PreparedKeeps(c, s1, s1.ballot);
    StoredHears(c, s1, OwnStatement(c, s1.ballot, PREPARED));
    KeepsSelf(c, s1);
    var s2 := if IsPrepared(c, s1.stmts, s1.ballot.value, s1.ballot) then AttemptPrepared(c, s1, s1.ballot) else s1;
    StoredHears(c, s2, OwnStatement(c, s2.ballot, COMMITTING));
    CommittingKeeps(c, s2);
    var s3 := AttemptCommitting(c, s2);
    InvIsHonest(c, s3);
    CommitEffect(c, s3);
    hide AttemptCommitted;
  }

  lemma PreparingSt(c: Context, s: Slot)
    ensures PreparingStatement(c, s).kind == PREPARING && PreparingStatement(c, s).ballot == s.ballot
  {
  }

  lemma TryBumpHears(c: Context, s: Slot, b: Ballot)
    requires ContextOK(c) && Inv(c, s) && !s.crashed && !s.committed
    ensures HeardBefore(s, TryBump(c, s, b))
  {
    FollowConfirmedHears(c, s, b.value);
    FollowConfirmedKeeps(c, s, b.value);
    var t := FollowConfirmed(c, s, b.value);
    if !t.crashed {
      FollowPreparedHears(c, t, b);
    }
    hide Inv, ContextOK, FollowConfirmed, FollowPrepared, Grows, Forward;
  }

  lemma FollowConfirmedHears(c: Context, s: Slot, v: Value)
    requires ContextOK(c) && Inv(c, s) && !s.crashed && !s.committed
    ensures HeardBefore(s, FollowConfirmed(c, s, v))
  {
    var u := BumpToBallot(c, s, ExternalizeBallot(c, s, v));
    BumpKeeps(c, s, ExternalizeBallot(c, s, v));
    if !u.crashed {
      InvIsHonest(c, u);
      CommitEffect(c, u);
    }
    hide Inv, IsCommittedConfirmed, ExternalizeBallot, AttemptCommitted, MayBump, Keeps;
  }

  lemma FollowPreparedHears(c: Context, s: Slot, b: Ballot)
    requires ContextOK(c) && Inv(c, s) && !s.crashed
    ensures HeardBefore(s, FollowPrepared(c, s, b))
  {
    if s.committed {
      PreparedAfterCommitHears(c, s, b);
    } else {
      StoredHears(c, s, OwnStatement(c, b, PREPARED));
    }
    hide Inv, IsPrepared, Less, Record, MayBump;
  }

  lemma PreparedAfterCommitHears(c: Context, s: Slot, b: Ballot)
    requires ContextOK(c) && s.committed && !s.crashed
    ensures AttemptPrepared(c, s, b).heard == s.heard && AttemptPrepared(c, s, b).ballot == s.ballot
  {
  }

  lemma {:induction false} TryBumpsHear(c: Context, s: Slot, bs: seq<Ballot>)
    requires ContextOK(c) && Inv(c, s)
    ensures HeardBefore(s, TryBumps(c, s, bs))
    decreases |bs|
  {
    hide Inv, ContextOK, TryBump, Grows, Forward;
    if |bs| != 0 && !s.committed && !s.externalized && !s.crashed {
      TryBumpHears(c, s, bs[0]);
      TryBumpKeeps(c, s, bs[0]);
      TryBumpsHear(c, TryBump(c, s, bs[0]), bs[1..]);
    }
  }
}
