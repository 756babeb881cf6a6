/** What every event of a slot keeps: the shape of its statements, the order of its ballots,
    the consistency of what it has said, and the finality of its commitment. */
module SlotSafety {
  import opened Quorums
  import opened SlotModel

  /** Statements are filed under their own ballot and kind. */
  ghost predicate Filed(stmts: Statements)
  {
    forall k :: k in stmts ==> stmts[k].ballot == k.ballot && stmts[k].kind == k.kind
  }

  /** No stored PREPARING is above the current ballot. */
  ghost predicate PreparingBelow(c: Context, s: Slot)
  {
    forall k :: k in s.stmts && k.kind == PREPARING ==> !s.pristine && !Less(c, s.ballot, k.ballot)
  }

  ghost predicate OwnBelow(c: Context, s: Slot)
  {
    forall k :: k in s.stmts && k.node == c.self ==>
      && s.stmts[k].qset == c.localQSet
      && (k.kind == COMMITTING ==> !s.pristine && !Less(c, s.ballot, k.ballot))
  }

  /** Every own PREPARING above an own COMMITTING lists that ballot as excepted. */
  ghost predicate Consistent(c: Context, node: NodeID, stmts: Statements)
  {
    forall k, k' ::
      && k in stmts && k.node == node && k.kind == PREPARING
      && k' in stmts && k'.node == node && k'.kind == COMMITTING
      && Less(c, k'.ballot, k.ballot)
      ==> k'.ballot in stmts[k].excepted
  }

  /** Committed means: an own COMMITTED is on record, and it is the only one. */
  ghost predicate Committal(c: Context, s: Slot)
  {
    && (s.committed ==> !s.pristine && Recorded(c, s.stmts, s.ballot, COMMITTED))
    && (forall k :: k in s.stmts && k.node == c.self && k.kind == COMMITTED ==>
          s.committed && k.ballot == s.ballot && s.stmts[k] == OwnStatement(c, s.ballot, COMMITTED))
    && (s.externalized ==> s.committed)
  }

  function KeyOf(env: Envelope): Key
  {
    Key(env.statement.ballot, env.statement.kind, env.node)
  }

  /** Whatever was sent, PREPARED aside, is on record, and every own statement on record was sent. */
  ghost predicate Sent(c: Context, s: Slot)
  {
    && (forall e :: e in s.emitted ==>
          && e.node == c.self
          && e.statement.qset == c.localQSet
          && (e.statement.kind != PREPARED ==> KeyOf(e) in s.stmts && s.stmts[KeyOf(e)] == e.statement))
    && (forall k :: k in s.stmts && k.node == c.self ==> Envelope(c.self, s.stmts[k]) in s.emitted)
  }

  /** A node has at most one COMMITTED on record. */
  ghost predicate OneCommitted(stmts: Statements)
  {
    forall k, k' :: k in stmts && k' in stmts && k.kind == COMMITTED && k'.kind == COMMITTED && k.node == k'.node ==>
      k == k'
  }

  ghost predicate Inv(c: Context, s: Slot)
  {
    && (s.pristine ==> s.ballot.counter == 0)
    && Filed(s.stmts)
    && OneCommitted(s.stmts)
    && PreparingBelow(c, s)
    && OwnBelow(c, s)
    && Consistent(c, c.self, s.stmts)
    && Committal(c, s)
    && Sent(c, s)
  }

  /** Ballots only rise, and nothing about a commitment is taken back. */
  ghost predicate Forward(c: Context, s: Slot, t: Slot)
  {
    && (s.committed ==> t.committed && t.ballot == s.ballot)
    && (s.externalized ==> t.externalized)
    && (!s.pristine ==> !t.pristine && !Less(c, t.ballot, s.ballot))
  }

  /** Statements are only added, and only the node's own. */
  ghost predicate Grows(c: Context, s: Slot, t: Slot)
  {
    && (forall k :: k in s.stmts ==> k in t.stmts && t.stmts[k] == s.stmts[k])
    && (forall k :: k in t.stmts ==> k in s.stmts || k.node == c.self)
    && s.emitted <= t.emitted
  }

  ghost predicate Keeps(c: Context, s: Slot, t: Slot)
  {
    Inv(c, t) && Grows(c, s, t) && Forward(c, s, t)
  }

  lemma InitialInv(c: Context)
    ensures Inv(c, Initial(c)) && Honest(c, Initial(c))
  {
  }

  lemma InvIsHonest(c: Context, s: Slot)
    requires Inv(c, s)
    ensures Honest(c, s)
  {
    if !s.committed {
      assert forall e :: e in s.emitted && e.statement.kind == COMMITTED ==> KeyOf(e) in s.stmts;
    }
  }

  lemma KeepsSelf(c: Context, s: Slot)
    requires Inv(c, s)
    ensures Keeps(c, s, s)
  {
  }

  lemma ForwardTransitive(c: Context, s: Slot, t: Slot, u: Slot)
    requires Forward(c, s, t) && Forward(c, t, u)
    ensures Forward(c, s, u)
  {
  }

  lemma KeepsTransitive(c: Context, s: Slot, t: Slot, u: Slot)
    requires Keeps(c, s, t) && Keeps(c, t, u)
    ensures Keeps(c, s, u)
  {
    hide Inv;
  }

  /** Flags that no statement depends on. */
  lemma KeepsFlags(c: Context, s: Slot, t: Slot)
    requires Inv(c, s)
    requires t == s.(again := t.again, heard := t.heard, crashed := t.crashed, externalized := t.externalized)
    requires s.externalized ==> t.externalized
    requires t.externalized ==> s.committed
    ensures Keeps(c, s, t)
  {
  }

  // ---------------------------------------------------------------- one more statement, property by property

  lemma FiledAfter(stmts: Statements, n: NodeID, st: Statement)
    requires Filed(stmts)
    ensures Filed(stmts[Key(st.ballot, st.kind, n) := st])
  {
  }

  lemma PreparingAfter(c: Context, s: Slot, t: Slot, n: NodeID, st: Statement)
    requires PreparingBelow(c, s) && t.stmts == s.stmts[Key(st.ballot, st.kind, n) := st]
    requires t.ballot == s.ballot && t.pristine == s.pristine
    requires st.kind == PREPARING ==> !s.pristine && !Less(c, s.ballot, st.ballot)
    ensures PreparingBelow(c, t)
  {
    hide Less;
  }

  lemma OwnAfter(c: Context, s: Slot, t: Slot, n: NodeID, st: Statement)
    requires OwnBelow(c, s) && t.stmts == s.stmts[Key(st.ballot, st.kind, n) := st]
    requires t.ballot == s.ballot && t.pristine == s.pristine
    requires n == c.self ==> st.qset == c.localQSet && (st.kind == COMMITTING ==> !s.pristine && !Less(c, s.ballot, st.ballot))
    ensures OwnBelow(c, t)
  {
    hide Less;
  }

  lemma ConsistentAfter(c: Context, s: Slot, n: NodeID, st: Statement)
    requires Consistent(c, c.self, s.stmts) && PreparingBelow(c, s)
    requires n == c.self && st.kind == PREPARING ==> OwnCommitting(c, s.stmts) <= st.excepted
    requires n == c.self && st.kind == COMMITTING ==> st.ballot == s.ballot
    ensures Consistent(c, c.self, s.stmts[Key(st.ballot, st.kind, n) := st])
  {
    hide Less;
    var after := s.stmts[Key(st.ballot, st.kind, n) := st];
    forall k, k' |
      && k in after && k.node == c.self && k.kind == PREPARING
      && k' in after && k'.node == c.self && k'.kind == COMMITTING
      && Less(c, k'.ballot, k.ballot)
      ensures k'.ballot in after[k].excepted
    {
      if k == Key(st.ballot, st.kind, n) {
        assert k'.ballot in OwnCommitting(c, s.stmts);
      }
    }
  }

  lemma CommittalAfter(c: Context, s: Slot, t: Slot, n: NodeID, st: Statement)
    requires Committal(c, s) && t.stmts == s.stmts[Key(st.ballot, st.kind, n) := st]
    requires t.ballot == s.ballot && t.pristine == s.pristine && t.committed == s.committed && t.externalized == s.externalized
    requires st.kind == COMMITTED ==> n != c.self
    ensures Committal(c, t)
  {
  }

  lemma OneCommittedAfter(stmts: Statements, n: NodeID, st: Statement)
    requires OneCommitted(stmts) && (st.kind == COMMITTED ==> !HasCommitted(stmts, n))
    ensures OneCommitted(stmts[Key(st.ballot, st.kind, n) := st])
  {
  }

  lemma SentAfter(c: Context, s: Slot, t: Slot, n: NodeID, st: Statement)
    requires Sent(c, s) && t.stmts == s.stmts[Key(st.ballot, st.kind, n) := st]
    requires t.emitted == s.emitted || (t.emitted == s.emitted + [Envelope(n, st)] && n == c.self && st.qset == c.localQSet)
    requires n == c.self ==> Key(st.ballot, st.kind, n) !in s.stmts || st.kind == PREPARED
    requires n == c.self ==> Envelope(n, st) in t.emitted
    ensures Sent(c, t)
  {
  }

  lemma BumpKeeps(c: Context, s: Slot, b: Ballot)
    requires Inv(c, s)
    ensures Keeps(c, s, BumpToBallot(c, s, b))
  {
    hide Less, Filed, Consistent, OneCommitted;
    var t := BumpToBallot(c, s, b);
    if MayBump(c, s, b) {
      BumpBelow(c, s, t, b);
      assert Sent(c, t);
    } else {
      InvExternalized(c, s);
      KeepsFlags(c, s, t);
    }
  }

  lemma BumpBelow(c: Context, s: Slot, t: Slot, b: Ballot)
    requires PreparingBelow(c, s) && OwnBelow(c, s) && Committal(c, s) && MayBump(c, s, b)
    requires t.stmts == s.stmts && t.ballot == b && !t.pristine && t.committed == s.committed && t.externalized == s.externalized
    ensures PreparingBelow(c, t) && OwnBelow(c, t) && Committal(c, t)
  {
    forall k | k in s.stmts && !s.pristine && !Less(c, s.ballot, k.ballot) ensures !Less(c, b, k.ballot) {
      LessTransitive(c, k.ballot, s.ballot, b);
    }
    hide Less;
  }

  lemma LessTransitive(c: Context, x: Ballot, y: Ballot, z: Ballot)
    requires !Less(c, y, x) && !Less(c, z, y)
    ensures !Less(c, z, x)
  {
  }

  /** Recording an own statement that the node may make keeps everything. */
  lemma OwnStoreKeeps(c: Context, s: Slot, st: Statement)
    requires Inv(c, s) && st.qset == c.localQSet && !Recorded(c, s.stmts, st.ballot, st.kind)
    requires st.kind == PREPARING ==>
               !s.pristine && st.ballot == s.ballot && OwnCommitting(c, s.stmts) <= st.excepted
    requires st.kind == COMMITTING ==> !s.pristine && st.ballot == s.ballot
    requires st.kind != COMMITTED
    ensures Keeps(c, s, Store(s, c.self, st).(again := true, emitted := s.emitted + [Envelope(c.self, st)]))
  {
    hide Filed, PreparingBelow, OwnBelow, Consistent, Committal, Sent, OneCommitted;
    var t := Store(s, c.self, st).(again := true, emitted := s.emitted + [Envelope(c.self, st)]);
    LessIrreflexive(c, s.ballot);
    FiledAfter(s.stmts, c.self, st);
    PreparingAfter(c, s, t, c.self, st);
    OwnAfter(c, s, t, c.self, st);
    ConsistentAfter(c, s, c.self, st);
    CommittalAfter(c, s, t, c.self, st);
    OneCommittedAfter(s.stmts, c.self, st);
    SentAfter(c, s, t, c.self, st);
  }

  lemma LessIrreflexive(c: Context, b: Ballot)
    ensures !Less(c, b, b)
  {
  }

  lemma PreparingKeeps(c: Context, s: Slot)
    requires ContextOK(c) && Inv(c, s) && !s.committed && !s.crashed && !s.pristine
    ensures var t := AttemptPreparing(c, s);
            Keeps(c, s, t) && !t.committed && !t.crashed && !t.pristine && t.ballot == s.ballot
  {
    hide Record, Keeps, Inv, LeastPrepared;
    KeepsSelf(c, s);
    if !Recorded(c, s.stmts, s.ballot, PREPARING) {
      RecordEffect(c, s, PreparingStatement(c, s));
      OwnStoreKeeps(c, s, PreparingStatement(c, s));
    }
  }

  lemma PreparedKeeps(c: Context, s: Slot, b: Ballot)
    requires ContextOK(c) && Inv(c, s) && !s.committed && !s.crashed
    ensures var t := AttemptPrepared(c, s, b);
            Keeps(c, s, t) && !t.committed && !t.crashed && t.pristine == s.pristine && t.ballot == s.ballot
  {
    hide Record, Keeps, Inv;
    KeepsSelf(c, s);
    if !Recorded(c, s.stmts, b, PREPARED) {
      RecordEffect(c, s, OwnStatement(c, b, PREPARED));
      OwnStoreKeeps(c, s, OwnStatement(c, b, PREPARED));
    }
  }

  /** After the commit, an own PREPARED is sent together with the COMMITTED but not recorded. */
  lemma PreparedAfterCommitKeeps(c: Context, s: Slot, b: Ballot)
    requires ContextOK(c) && Inv(c, s) && s.committed && !s.crashed
    ensures var t := AttemptPrepared(c, s, b);
            Keeps(c, s, t) && t.committed && !t.crashed && t.stmts == s.stmts
  {
    var t := AttemptPrepared(c, s, b);
    var st := OwnStatement(c, s.ballot, COMMITTED);
    if !Recorded(c, s.stmts, b, PREPARED) {
      assert t == s.(emitted := s.emitted + [Envelope(c.self, st)] + [Envelope(c.self, OwnStatement(c, b, PREPARED))]);
      assert Key(s.ballot, COMMITTED, c.self) in s.stmts;
      assert Sent(c, t);
    }
  }

  lemma CommittingKeeps(c: Context, s: Slot)
    requires ContextOK(c) && Inv(c, s) && !s.committed && !s.crashed && !s.pristine
    ensures var t := AttemptCommitting(c, s);
            Keeps(c, s, t) && !t.committed && !t.crashed && t.pristine == s.pristine && t.ballot == s.ballot
  {
    hide Record, Keeps, Inv;
    KeepsSelf(c, s);
    if !Recorded(c, s.stmts, s.ballot, COMMITTING) {
      RecordEffect(c, s, OwnStatement(c, s.ballot, COMMITTING));
      OwnStoreKeeps(c, s, OwnStatement(c, s.ballot, COMMITTING));
    }
  }

  lemma CommittedKeeps(c: Context, s: Slot)
    requires ContextOK(c) && Inv(c, s) && !s.committed && !s.crashed && !s.pristine
    ensures var t := AttemptCommitted(c, s);
            Keeps(c, s, t) && t.committed && !t.crashed
  {
    hide AttemptCommitted;
    hide Filed, PreparingBelow, OwnBelow, Consistent, Committal, Sent, OneCommitted;
    InvIsHonest(c, s);
    CommitEffect(c, s);
    var t, st := AttemptCommitted(c, s), OwnStatement(c, s.ballot, COMMITTED);
    NoneCommitted(c, s);
    LessIrreflexive(c, s.ballot);
    FiledAfter(s.stmts, c.self, st);
    PreparingAfter(c, s, t, c.self, st);
    OwnAfter(c, s, t, c.self, st);
    ConsistentAfter(c, s, c.self, st);
    OneCommittedAfter(s.stmts, c.self, st);
    SentAfter(c, s, t, c.self, st);
    CommittalHere(c, s, t, st);
  }

  lemma NoneCommitted(c: Context, s: Slot)
    requires Committal(c, s) && !s.committed
    ensures !HasCommitted(s.stmts, c.self) && !s.externalized
  {
  }

  lemma CommittalHere(c: Context, s: Slot, t: Slot, st: Statement)
    requires Committal(c, s) && !s.committed && !s.pristine && st == OwnStatement(c, s.ballot, COMMITTED)
    requires t.stmts == s.stmts[Key(s.ballot, COMMITTED, c.self) := st]
    requires t.ballot == s.ballot && t.committed && t.pristine == s.pristine && t.externalized == s.externalized
    ensures Committal(c, t)
  {
  }

  lemma VoteKeeps(c: Context, s: Slot)
    requires ContextOK(c) && Inv(c, s) && !s.committed && !s.crashed && !s.pristine
    ensures Keeps(c, s, Vote(c, s)) && !Vote(c, s).crashed
  {
    hide AttemptPreparing, AttemptPrepared, AttemptCommitting, AttemptCommitted, Inv, Grows, Forward;
    hide IsPrepared, IsPreparedConfirmed, IsCommitted;
    PreparingKeeps(c, s);
    var s1 := AttemptPreparing(c, s);
    PreparedKeeps(c, s1, s1.ballot);
    KeepsSelf(c, s1);
    var s2 := if IsPrepared(c, s1.stmts, s1.ballot.value, s1.ballot) then AttemptPrepared(c, s1, s1.ballot) else s1;
    KeepsTransitive(c, s, s1, s2);
    CommittingKeeps(c, s2);
    var s3 := AttemptCommitting(c, s2);
    KeepsTransitive(c, s, s2, s3);
    CommittedKeeps(c, s3);
    KeepsTransitive(c, s, s3, AttemptCommitted(c, s3));
  }

  lemma FollowConfirmedKeeps(c: Context, s: Slot, v: Value)
    requires ContextOK(c) && Inv(c, s) && !s.committed && !s.crashed
    ensures var t := FollowConfirmed(c, s, v);
            Keeps(c, s, t) && (t == s || t.committed || t.crashed)
  {
    hide AttemptCommitted, IsCommittedConfirmed, ExternalizeBallot, Inv, Grows, Forward;
    KeepsSelf(c, s);
    var b := ExternalizeBallot(c, s, v);
    BumpKeeps(c, s, b);
    var t := BumpToBallot(c, s, b);
    if !t.crashed {
      CommittedKeeps(c, t);
      KeepsTransitive(c, s, t, AttemptCommitted(c, t));
    }
  }

  lemma FollowPreparedKeeps(c: Context, s: Slot, b: Ballot)
    requires ContextOK(c) && Inv(c, s) && !s.crashed
    ensures Keeps(c, s, FollowPrepared(c, s, b))
  {
    hide AttemptPrepared, IsPrepared, Inv, Grows, Forward;
    KeepsSelf(c, s);
    if Less(c, s.ballot, b) {
      BumpKeeps(c, s, b);
      var t := BumpToBallot(c, s, b);
      InvExternalized(c, t);
      KeepsFlags(c, t, t.(again := true));
      KeepsTransitive(c, s, t, t.(again := true));
    } else if s.committed {
      PreparedAfterCommitKeeps(c, s, b);
    } else {
      PreparedKeeps(c, s, b);
    }
  }

  lemma InvExternalized(c: Context, s: Slot)
    requires Inv(c, s)
    ensures s.externalized ==> s.committed
    ensures s.pristine ==> !s.committed
  {
  }

  lemma TryBumpKeeps(c: Context, s: Slot, b: Ballot)
    requires ContextOK(c) && Inv(c, s) && !s.committed && !s.crashed
    ensures Keeps(c, s, TryBump(c, s, b))
  {
    hide FollowConfirmed, FollowPrepared, Inv, Grows, Forward;
    FollowConfirmedKeeps(c, s, b.value);
    var t := FollowConfirmed(c, s, b.value);
    if !t.crashed {
      FollowPreparedKeeps(c, t, b);
      KeepsTransitive(c, s, t, FollowPrepared(c, t, b));
    }
  }

  lemma {:induction false} TryBumpsKeeps(c: Context, s: Slot, bs: seq<Ballot>)
    requires ContextOK(c) && Inv(c, s)
    ensures Keeps(c, s, TryBumps(c, s, bs))
    decreases |bs|
  {
    hide TryBump, Inv, Grows, Forward;
    KeepsSelf(c, s);
    if |bs| != 0 && !s.committed && !s.externalized && !s.crashed {
      var t := TryBump(c, s, bs[0]);
      TryBumpKeeps(c, s, bs[0]);
      TryBumpsKeeps(c, t, bs[1..]);
      KeepsTransitive(c, s, t, TryBumps(c, t, bs[1..]));
    }
  }

  lemma DecideKeeps(c: Context, s: Slot)
    requires ContextOK(c) && Inv(c, s) && !s.crashed
    ensures Keeps(c, s, Decide(c, s)) && !Decide(c, s).crashed
  {
    hide Vote, IsCommittedConfirmed, Inv, Grows, Forward;
    KeepsSelf(c, s);
    if s.committed {
      KeepsFlags(c, s, s.(externalized := true));
    } else if !s.pristine {
      VoteKeeps(c, s);
    }
  }

  lemma PassKeeps(c: Context, s: Slot)
    requires ContextOK(c) && Inv(c, s) && !s.crashed
    ensures Keeps(c, s, Pass(c, s))
  {
    hide Decide, TryBumps, HearsQuorum, Inv, Grows, Forward;
    var s1 := Decide(c, s);
    DecideKeeps(c, s);
    var s2 := TryBumps(c, s1, c.order(Known(s1.stmts)));
    TryBumpsKeeps(c, s1, c.order(Known(s1.stmts)));
    KeepsTransitive(c, s, s1, s2);
    InvExternalized(c, s2);
    KeepsFlags(c, s2, Listen(c, s2));
    KeepsTransitive(c, s, s2, Listen(c, s2));
  }

  lemma {:induction false} AdvanceKeeps(c: Context, s: Slot)
    requires ContextOK(c) && Inv(c, s) && Honest(c, s) && !s.crashed && !s.again
    ensures Keeps(c, s, Advance(c, s))
    ensures !Advance(c, s).crashed ==> !Advance(c, s).again
    decreases Measure(c, s)
  {
    hide Pass, Inv, Grows, Forward, Measure, Honest;
    var p := Pass(c, s);
    PassKeeps(c, s);
    if p.again && !p.crashed {
      var q := p.(again := false);
      PassProgress(c, s);
      MeasureIgnoresFlags(c, p, q);
      InvExternalized(c, p);
      KeepsFlags(c, p, q);
      KeepsTransitive(c, s, p, q);
      AdvanceKeeps(c, q);
      KeepsTransitive(c, s, q, Advance(c, q));
    }
  }

  // ---------------------------------------------------------------- events

  /** Storing what another node said. */
  lemma ForeignStoreInv(c: Context, s: Slot, n: NodeID, st: Statement)
    requires Inv(c, s) && n != c.self
    requires st.kind == PREPARING ==> !s.pristine && !Less(c, s.ballot, st.ballot)
    requires st.kind == COMMITTED ==> !HasCommitted(s.stmts, n)
    ensures Inv(c, Store(s, n, st))
  {
    hide Filed, PreparingBelow, OwnBelow, Consistent, Committal, Sent, OneCommitted;
    var t := Store(s, n, st);
    FiledAfter(s.stmts, n, st);
    PreparingAfter(c, s, t, n, st);
    OwnAfter(c, s, t, n, st);
    ConsistentAfter(c, s, n, st);
    CommittalAfter(c, s, t, n, st);
    OneCommittedAfter(s.stmts, n, st);
    SentAfter(c, s, t, n, st);
  }

  /** Hearing an own statement again changes nothing but a PREPARED that went unrecorded. */
  lemma OwnEchoInv(c: Context, s: Slot, st: Statement)
    requires Inv(c, s) && Envelope(c.self, st) in s.emitted && (st.kind == PREPARED ==> st.qset == c.localQSet)
    ensures Inv(c, Store(s, c.self, st))
  {
    var t := Store(s, c.self, st);
    if st.kind != PREPARED {
      SentFacts(c, s, Envelope(c.self, st));
      assert t.stmts == s.stmts;
    } else {
      hide Filed, PreparingBelow, OwnBelow, Consistent, Committal, Sent, OneCommitted;
      FiledAfter(s.stmts, c.self, st);
      PreparingAfter(c, s, t, c.self, st);
      OwnAfter(c, s, t, c.self, st);
      ConsistentAfter(c, s, c.self, st);
      CommittalAfter(c, s, t, c.self, st);
      OneCommittedAfter(s.stmts, c.self, st);
      SentAfter(c, s, t, c.self, st);
    }
  }

  lemma AcceptInv(c: Context, s: Slot, env: Envelope)
    requires ContextOK(c) && Inv(c, s) && !s.crashed && !s.again && Genuine(c, s, env)
    ensures var t := Accept(c, s, env).slot;
            Inv(c, t) && Forward(c, s, t) && !t.again && s.emitted <= t.emitted
    ensures var t := Accept(c, s, env).slot;
            t.externalized == s.externalized && t.committed == s.committed
    ensures forall k :: k in Accept(c, s, env).slot.stmts ==>
              (k in s.stmts && Accept(c, s, env).slot.stmts[k] == s.stmts[k]) ||
              (k == KeyOf(env) && Accept(c, s, env).slot.stmts[k] == env.statement)
    ensures s.stmts.Keys <= Accept(c, s, env).slot.stmts.Keys
    ensures forall k :: k in s.stmts && k.node == c.self && k.kind != PREPARED ==>
              Accept(c, s, env).slot.stmts[k] == s.stmts[k]
  {
    hide Accept, MayBump, Inv, HasCommitted;
    AcceptEffect(c, s, env);
    var o, st, n := Accept(c, s, env), env.statement, env.node;
    InvExternalized(c, s);
    if o.stored {
      BumpKeeps(c, s, st.ballot);
      var u := if o.slot == Store(s, n, st) then s else BumpToBallot(c, s, st.ballot);
      assert Inv(c, u);
      assert o.slot == Store(u, n, st);
      if n == c.self {
        SentFacts(c, s, env);
        assert Envelope(c.self, st) == env;
        OwnEchoInv(c, u, st);
      } else {
        ForeignStoreInv(c, u, n, st);
      }
    } else if o.slot == s.(crashed := true) {
      KeepsFlags(c, s, o.slot);
    } else if o.slot != s {
      ResendInv(c, s);
    }
  }

  lemma SentFacts(c: Context, s: Slot, e: Envelope)
    requires Inv(c, s) && e in s.emitted
    ensures e.statement.qset == c.localQSet
    ensures e.statement.kind != PREPARED ==> KeyOf(e) in s.stmts && s.stmts[KeyOf(e)] == e.statement
  {
  }

  lemma ResendInv(c: Context, s: Slot)
    requires Inv(c, s) && s.committed
    ensures Inv(c, Emit(c, s, OwnStatement(c, s.ballot, COMMITTED)))
  {
    var t := Emit(c, s, OwnStatement(c, s.ballot, COMMITTED));
    assert KeyOf(Envelope(c.self, OwnStatement(c, s.ballot, COMMITTED))) == Key(s.ballot, COMMITTED, c.self);
    assert Sent(c, t);
  }
}
