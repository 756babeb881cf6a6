/** The state of one consensus slot and the transition functions of its node:
    what each delivered envelope, each local proposal and each round of slot
    advancement does to it. */
module SlotModel {
  import opened Options
  import opened Quorums

  type Value = nat

  const MAX_COUNTER := 0xFFFF_FFFF

  type uint32 = n: nat | n <= MAX_COUNTER

  /** Increment of a 32-bit ballot counter. */
  function Next(counter: uint32): uint32
  {
    (counter + 1) % (MAX_COUNTER + 1)
  }

  datatype Ballot = Ballot(counter: uint32, value: Value)

  datatype Kind = PREPARING | PREPARED | COMMITTING | COMMITTED

  /** `excepted` and `prepared` are the pledges of a PREPARING statement. */
  datatype Statement = Statement(ballot: Ballot, kind: Kind, qset: Hash,
                                 excepted: set<Ballot>, prepared: Option<Ballot>)

  datatype Envelope = Envelope(node: NodeID, statement: Statement)

  datatype Answer = VALID | INVALID | STATEMENTS_MISSING

  datatype Key = Key(ballot: Ballot, kind: Kind, node: NodeID)

  /** What is fixed for one node: its identity and quorum set, the quorum sets it can look up,
      the value order of every round (given by ranks), the validators, the order in which the
      statement map is walked, and the value an unset ballot holds. */
  datatype Context = Context(
    self: NodeID,
    localQSet: Hash,
    lookup: Hash -> QuorumSet,
    rank: (uint32, Value) -> real,
    validValue: (NodeID, Value) -> bool,
    validBallot: (NodeID, Ballot) -> bool,
    order: set<Ballot> -> seq<Ballot>,
    unset: Value)

  /** Ranks are injective, the node's validators accept its own statements, and walking the
      statement map visits exactly the ballots it holds. */
  ghost predicate ContextOK(c: Context)
  {
    && (forall n, a, b :: c.rank(n, a) == c.rank(n, b) ==> a == b)
    && (forall v :: c.validValue(c.self, v))
    && (forall b :: c.validBallot(c.self, b))
    && (forall known, b :: b in c.order(known) <==> b in known)
  }

  function Local(c: Context): QuorumSet
  {
    c.lookup(c.localQSet)
  }

  /** Ballot comparison: by counter, then by the value order of that counter. */
  function CompareBallots(c: Context, a: Ballot, b: Ballot): int
  {
    if a.counter < b.counter then -1
    else if b.counter < a.counter then 1
    else if c.rank(a.counter, a.value) < c.rank(a.counter, b.value) then -1
    else if c.rank(a.counter, b.value) < c.rank(a.counter, a.value) then 1
    else 0
  }

  predicate Less(c: Context, a: Ballot, b: Ballot)
  {
    CompareBallots(c, a, b) < 0
  }

  /** `again` is the request to run the advancement once more; `crashed` records that an
      assertion of the slot failed, after which the process is gone. */
  datatype Slot = Slot(
    ballot: Ballot,
    pristine: bool,
    heard: bool,
    committed: bool,
    externalized: bool,
    stmts: Statements,
    emitted: seq<Envelope>,
    again: bool,
    crashed: bool)

  type Statements = map<Key, Statement>

  function Initial(c: Context): Slot
  {
    Slot(Ballot(0, c.unset), true, true, false, false, map[], [], false, false)
  }

  function Known(stmts: Statements): set<Ballot>
  {
    set k | k in stmts :: k.ballot
  }

  predicate Recorded(c: Context, stmts: Statements, b: Ballot, kind: Kind)
  {
    Key(b, kind, c.self) in stmts
  }

  function Voters(stmts: Statements, b: Ballot, kind: Kind): set<NodeID>
  {
    set k | k in stmts && k.ballot == b && k.kind == kind :: k.node
  }

  function Votes(c: Context, stmts: Statements, b: Ballot, kind: Kind): map<NodeID, QuorumSet>
  {
    map n | n in Voters(stmts, b, kind) :: c.lookup(stmts[Key(b, kind, n)].qset)
  }

  // ---------------------------------------------------------------- tests

  /** Nodes preparing `b` that have already prepared a ballot above `e`. */
  function Aborting(c: Context, stmts: Statements, b: Ballot, e: Ballot): set<NodeID>
  {
    set n | n in Voters(stmts, b, PREPARING) && stmts[Key(b, PREPARING, n)].prepared.Some? &&
            Less(c, e, stmts[Key(b, PREPARING, n)].prepared.value)
  }

  predicate Ratifies(c: Context, stmts: Statements, current: Value, b: Ballot, n: NodeID)
    requires n in Voters(stmts, b, PREPARING)
  {
    var st := stmts[Key(b, PREPARING, n)];
    forall e :: e in st.excepted ==>
      e.value == current || IsVBlocking(c.lookup(st.qset), Aborting(c, stmts, b, e))
  }

  function Ratifying(c: Context, stmts: Statements, current: Value, b: Ballot): map<NodeID, QuorumSet>
  {
    map n | n in Voters(stmts, b, PREPARING) && Ratifies(c, stmts, current, b, n) :: c.lookup(stmts[Key(b, PREPARING, n)].qset)
  }

  predicate IsPrepared(c: Context, stmts: Statements, current: Value, b: Ballot)
  {
    Recorded(c, stmts, b, PREPARED)
    || IsVBlocking(Local(c), Voters(stmts, b, PREPARED))
    || IsQuorumTransitive(Local(c), Ratifying(c, stmts, current, b))
  }

  predicate IsPreparedConfirmed(c: Context, stmts: Statements, b: Ballot)
  {
    Recorded(c, stmts, b, COMMITTING) || IsQuorumTransitive(Local(c), Votes(c, stmts, b, PREPARED))
  }

  predicate IsCommitted(c: Context, stmts: Statements, b: Ballot)
  {
    Recorded(c, stmts, b, COMMITTED) || IsQuorumTransitive(Local(c), Votes(c, stmts, b, COMMITTING))
  }

  /** COMMITTED statements for a value across ballots; a later ballot overrides an earlier one. */
  function CommittedVotes(c: Context, stmts: Statements, v: Value, bs: seq<Ballot>): map<NodeID, QuorumSet>
  {
    if |bs| == 0 then map[]
    else
      var votes := CommittedVotes(c, stmts, v, bs[..|bs| - 1]);
      var b := bs[|bs| - 1];
      if b.value == v then votes + Votes(c, stmts, b, COMMITTED) else votes
  }

  predicate IsCommittedConfirmed(c: Context, stmts: Statements, v: Value)
  {
    IsQuorumTransitive(Local(c), CommittedVotes(c, stmts, v, c.order(Known(stmts))))
  }

  // ---------------------------------------------------------------- statements

  function OwnStatement(c: Context, b: Ballot, kind: Kind): Statement
  {
    Statement(b, kind, c.localQSet, {}, None)
  }

  /** The smallest own prepared ballot with the current value. */
  function LeastPrepared(c: Context, stmts: Statements, current: Value, bs: seq<Ballot>): Option<Ballot>
  {
    if |bs| == 0 then None
    else
      var p := LeastPrepared(c, stmts, current, bs[..|bs| - 1]);
      var b := bs[|bs| - 1];
      if Recorded(c, stmts, b, PREPARED) && b.value == current && (p.None? || Less(c, b, p.value))
      then Some(b) else p
  }

  function OwnCommitting(c: Context, stmts: Statements): set<Ballot>
  {
    set k | k in stmts && k.kind == COMMITTING && k.node == c.self :: k.ballot
  }

  function PreparingStatement(c: Context, s: Slot): Statement
  {
    Statement(s.ballot, PREPARING, c.localQSet, OwnCommitting(c, s.stmts), LeastPrepared(c, s.stmts, s.ballot.value, c.order(Known(s.stmts))))
  }

  function Emit(c: Context, s: Slot, st: Statement): Slot
  {
    s.(emitted := s.emitted + [Envelope(c.self, st)])
  }

  function Store(s: Slot, node: NodeID, st: Statement): Slot
  {
    s.(stmts := s.stmts[Key(st.ballot, st.kind, node) := st])
  }

  // ---------------------------------------------------------------- transitions

  /** The assertions guarding a change of ballot. */
  predicate MayBump(c: Context, s: Slot, b: Ballot)
  {
    && !s.committed && !s.externalized
    && (forall k :: k in s.stmts && k.kind == PREPARING && k.node == c.self ==> !Less(c, b, k.ballot))
    && (s.pristine || !Less(c, b, s.ballot))
  }

  function BumpToBallot(c: Context, s: Slot, b: Ballot): Slot
  {
    if MayBump(c, s, b) then s.(ballot := b, pristine := false, heard := false)
    else s.(crashed := true)
  }

  /** Some PREPARING of `node` above `b` does not list `b` as excepted. */
  predicate Contradicted(c: Context, stmts: Statements, node: NodeID, b: Ballot)
  {
    exists k :: k in stmts && k.kind == PREPARING && k.node == node &&
                Less(c, b, k.ballot) && b !in stmts[k].excepted
  }

  predicate HasCommitted(stmts: Statements, node: NodeID)
  {
    exists k :: k in stmts && k.kind == COMMITTED && k.node == node
  }

  datatype Outcome = Outcome(slot: Slot, stored: bool, answers: seq<Answer>)

  /** What processing an envelope does before the slot is advanced. A PREPARING with an
      invalid ballot is answered twice. */
  function Accept(c: Context, s: Slot, env: Envelope): Outcome
  {
    var st, n := env.statement, env.node;
    var b := st.ballot;
    if !c.validValue(n, b.value) then Outcome(s, false, [INVALID])
    else if !s.committed && st.kind == PREPARING then
      if !c.validBallot(n, b) then Outcome(s, false, [INVALID, VALID])
      else
        var t := if s.pristine || Less(c, s.ballot, b) then BumpToBallot(c, s, b) else s;
        if t.crashed then Outcome(t, false, []) else Outcome(Store(t, n, st), true, [VALID])
    else if !s.committed && st.kind == PREPARED then Outcome(Store(s, n, st), true, [VALID])
    else if !s.committed && st.kind == COMMITTING then
      if Contradicted(c, s.stmts, n, b) then Outcome(s, false, [INVALID])
      else if Key(b, PREPARED, n) in s.stmts then Outcome(Store(s, n, st), true, [VALID])
      else Outcome(s, false, [STATEMENTS_MISSING])
    else if st.kind == COMMITTED then
      if HasCommitted(s.stmts, n) then Outcome(s, false, [INVALID]) else Outcome(Store(s, n, st), true, [VALID])
    else Outcome(Emit(c, s, OwnStatement(c, s.ballot, COMMITTED)), false, [VALID])
  }

  /** The node processes a statement of its own while the slot is being advanced: storing it
      asks for another round, and a valid statement is sent out. */
  function Record(c: Context, s: Slot, st: Statement): Slot
  {
    var o := Accept(c, s, Envelope(c.self, st));
    var t := if o.stored then o.slot.(again := true) else o.slot;
    if VALID in o.answers then Emit(c, t, st) else t
  }

  function AttemptPreparing(c: Context, s: Slot): Slot
  {
    if Recorded(c, s.stmts, s.ballot, PREPARING) then s else Record(c, s, PreparingStatement(c, s))
  }

  function AttemptPrepared(c: Context, s: Slot, b: Ballot): Slot
  {
    if Recorded(c, s.stmts, b, PREPARED) then s else Record(c, s, OwnStatement(c, b, PREPARED))
  }

  function AttemptCommitting(c: Context, s: Slot): Slot
  {
    if Recorded(c, s.stmts, s.ballot, COMMITTING) then s else Record(c, s, OwnStatement(c, s.ballot, COMMITTING))
  }

  function AttemptCommitted(c: Context, s: Slot): Slot
  {
    if Recorded(c, s.stmts, s.ballot, COMMITTED) then s
    else Record(c, s.(committed := true), OwnStatement(c, s.ballot, COMMITTED))
  }

  function AttemptExternalize(s: Slot): Slot
  {
    s.(externalized := true)
  }

  /** Statements about the current ballot, while it is neither unset nor committed. */
  function Vote(c: Context, s: Slot): Slot
  {
    var s1 := AttemptPreparing(c, s);
    var s2 := if IsPrepared(c, s1.stmts, s1.ballot.value, s1.ballot) then AttemptPrepared(c, s1, s1.ballot) else s1;
    if IsPreparedConfirmed(c, s2.stmts, s2.ballot) then
      var s3 := AttemptCommitting(c, s2);
      if IsCommitted(c, s3.stmts, s3.ballot) then AttemptCommitted(c, s3) else s3
    else s2
  }

  function Decide(c: Context, s: Slot): Slot
  {
    if s.pristine then s
    else if !s.committed then Vote(c, s)
    else if IsCommittedConfirmed(c, s.stmts, s.ballot.value) then AttemptExternalize(s)
    else s
  }

  /** The largest of `b` and the ballots with the same value that have a COMMITTED statement. */
  function RaiseToCommitted(c: Context, stmts: Statements, b: Ballot, bs: seq<Ballot>): Ballot
  {
    if |bs| == 0 then b
    else
      var r := RaiseToCommitted(c, stmts, b, bs[..|bs| - 1]);
      var x := bs[|bs| - 1];
      if x.value == r.value && Voters(stmts, x, COMMITTED) != {} && Less(c, r, x) then x else r
  }

  /** The ballot a slot moves to in order to follow a confirmed value. */
  function ExternalizeBallot(c: Context, s: Slot, v: Value): Ballot
  {
    var b := Ballot(s.ballot.counter, v);
    var b' := if Less(c, b, s.ballot) then Ballot(Next(b.counter), v) else b;
    RaiseToCommitted(c, s.stmts, b', c.order(Known(s.stmts)))
  }

  function FollowConfirmed(c: Context, s: Slot, v: Value): Slot
  {
    if IsCommittedConfirmed(c, s.stmts, v) then
      var t := BumpToBallot(c, s, ExternalizeBallot(c, s, v));
      if t.crashed then t else AttemptCommitted(c, t)
    else s
  }

  function FollowPrepared(c: Context, s: Slot, b: Ballot): Slot
  {
    if IsPrepared(c, s.stmts, s.ballot.value, b) then
      if Less(c, s.ballot, b) then BumpToBallot(c, s, b).(again := true) else AttemptPrepared(c, s, b)
    else s
  }

  /** One known ballot examined by the advancement. */
  function TryBump(c: Context, s: Slot, b: Ballot): Slot
  {
    var t := FollowConfirmed(c, s, b.value);
    if t.crashed then t else FollowPrepared(c, t, b)
  }

  function TryBumps(c: Context, s: Slot, bs: seq<Ballot>): Slot
    decreases |bs|
  {
    if |bs| == 0 || s.committed || s.externalized || s.crashed then s
    else TryBumps(c, TryBump(c, s, bs[0]), bs[1..])
  }

  function Speakers(stmts: Statements, b: Ballot): set<NodeID>
  {
    set k | k in stmts && k.ballot == b :: k.node
  }

  lemma SpeakersHaveStatements(stmts: Statements, b: Ballot, n: NodeID)
    requires n in Speakers(stmts, b)
    ensures || Key(b, PREPARING, n) in stmts || Key(b, PREPARED, n) in stmts
            || Key(b, COMMITTING, n) in stmts || Key(b, COMMITTED, n) in stmts
  {
    var k :| k in stmts && k.ballot == b && k.node == n;
    assert k == Key(b, k.kind, n);
    assert k.kind == PREPARING || k.kind == PREPARED || k.kind == COMMITTING || k.kind == COMMITTED;
  }

  /** The statement of `n` about ballot `b` of the most advanced kind. */
  function Latest(stmts: Statements, b: Ballot, n: NodeID): Statement
    requires n in Speakers(stmts, b)
  {
    if Key(b, COMMITTED, n) in stmts then stmts[Key(b, COMMITTED, n)]
    else if Key(b, COMMITTING, n) in stmts then stmts[Key(b, COMMITTING, n)]
    else if Key(b, PREPARED, n) in stmts then stmts[Key(b, PREPARED, n)]
    else
      SpeakersHaveStatements(stmts, b, n);
      stmts[Key(b, PREPARING, n)]
  }

  predicate HearsQuorum(c: Context, s: Slot)
  {
    IsQuorumTransitive(Local(c), map n | n in Speakers(s.stmts, s.ballot) :: c.lookup(Latest(s.stmts, s.ballot, n).qset))
  }

  lemma SameHearing(c: Context, s: Slot, t: Slot)
    requires t.stmts == s.stmts && t.ballot == s.ballot
    ensures HearsQuorum(c, t) == HearsQuorum(c, s)
  {
    assert (map n | n in Speakers(s.stmts, s.ballot) :: c.lookup(Latest(s.stmts, s.ballot, n).qset))
        == (map n | n in Speakers(t.stmts, t.ballot) :: c.lookup(Latest(t.stmts, t.ballot, n).qset));
  }

  function Listen(c: Context, s: Slot): Slot
  {
    if !s.heard && HearsQuorum(c, s) then s.(heard := true) else s
  }

  /** One round of advancement. */
  function Pass(c: Context, s: Slot): Slot
  {
    var s1 := Decide(c, s);
    var s2 := TryBumps(c, s1, c.order(Known(s1.stmts)));
    if s2.crashed then s2 else Listen(c, s2)
  }

  // ---------------------------------------------------------------- termination

  /** An uncommitted node has neither recorded nor sent a COMMITTED of its own. */
  ghost predicate Honest(c: Context, s: Slot)
  {
    s.committed ||
    (!HasCommitted(s.stmts, c.self) && forall e :: e in s.emitted ==> e.statement.kind != COMMITTED)
  }

  function Relevant(s: Slot): set<Ballot>
  {
    Known(s.stmts) + {s.ballot}
  }

  /** Own statements about relevant ballots that are not recorded yet. */
  function Missing(c: Context, s: Slot): set<Key>
  {
    set b, kind | b in Relevant(s) && kind in {PREPARING, PREPARED, COMMITTING} && !Recorded(c, s.stmts, b, kind)
      :: Key(b, kind, c.self)
  }

  function Above(c: Context, s: Slot): set<Ballot>
  {
    set b | b in Relevant(s) && Less(c, s.ballot, b)
  }

  /** The termination measure: nothing once committed; before that the own statements not yet
      recorded and the known ballots above the current one. */
  function Measure(c: Context, s: Slot): nat
  {
    if s.committed || s.crashed then 0 else 1 + |Missing(c, s)| + |Above(c, s)|
  }

  /** A request for another round is backed by a smaller measure. */
  ghost predicate Progress(c: Context, s: Slot, t: Slot)
  {
    && Honest(c, t)
    && Measure(c, t) <= Measure(c, s)
    && (t.again ==> s.again || Measure(c, t) < Measure(c, s))
  }

  lemma KnownAfterStore(s: Slot, node: NodeID, st: Statement)
    ensures Known(Store(s, node, st).stmts) == Known(s.stmts) + {st.ballot}
  {
    var t := Store(s, node, st);
    assert Key(st.ballot, st.kind, node) in t.stmts;
    forall b | b in Known(s.stmts) ensures b in Known(t.stmts) {
      var k :| k in s.stmts && k.ballot == b;
      assert k in t.stmts;
    }
  }

  /** Effect of processing an own statement other than COMMITTED before the slot committed. */
  lemma RecordEffect(c: Context, s: Slot, st: Statement)
    requires ContextOK(c) && !s.committed && !s.crashed && st.kind != COMMITTED
    requires st.kind == PREPARING ==> st.ballot == s.ballot && !s.pristine
    ensures var t := Record(c, s, st);
            || t == s
            || t == Store(s, c.self, st).(again := true, emitted := s.emitted + [Envelope(c.self, st)])
    ensures Record(c, s, st) == s ==> st.kind == COMMITTING
    ensures st.kind == COMMITTING ==>
              (Record(c, s, st) == s <==> Contradicted(c, s.stmts, c.self, st.ballot) || !Recorded(c, s.stmts, st.ballot, PREPARED))
  {
    hide Contradicted;
  }

  lemma StoreProgress(c: Context, s: Slot, st: Statement)
    requires ContextOK(c) && Honest(c, s) && !s.committed && !s.crashed
    requires st.kind != COMMITTED && st.ballot in Relevant(s)
    requires !Recorded(c, s.stmts, st.ballot, st.kind)
    ensures var t := Store(s, c.self, st).(again := true, emitted := s.emitted + [Envelope(c.self, st)]);
            && Relevant(t) == Relevant(s)
            && Known(s.stmts) <= Known(t.stmts)
            && Progress(c, s, t)
  {
    var t := Store(s, c.self, st).(again := true, emitted := s.emitted + [Envelope(c.self, st)]);
    var k := Key(st.ballot, st.kind, c.self);
    KnownAfterStore(s, c.self, st);
    assert Known(t.stmts) == Known(Store(s, c.self, st).stmts);
    assert k in Missing(c, s) && k !in Missing(c, t);
    assert Missing(c, t) <= Missing(c, s);
    SmallerSet(Missing(c, t), Missing(c, s));
    assert Above(c, t) == Above(c, s);
  }

  lemma RecordProgress(c: Context, s: Slot, st: Statement)
    requires ContextOK(c) && Honest(c, s) && !s.committed && !s.crashed
    requires st.kind != COMMITTED && st.ballot in Relevant(s)
    requires st.kind == PREPARING ==> st.ballot == s.ballot && !s.pristine
    requires !Recorded(c, s.stmts, st.ballot, st.kind)
    ensures var t := Record(c, s, st);
            && Progress(c, s, t)
            && Relevant(t) == Relevant(s)
            && Known(s.stmts) <= Known(t.stmts)
            && !t.committed && !t.crashed && t.ballot == s.ballot && t.pristine == s.pristine
  {
    hide Record, Progress, Relevant, Known, Honest;
    RecordEffect(c, s, st);
    StoreProgress(c, s, st);
    SelfProgress(c, s);
  }

  lemma SelfProgress(c: Context, s: Slot)
    requires Honest(c, s)
    ensures Progress(c, s, s)
  {
  }

  lemma BumpProgress(c: Context, s: Slot, b: Ballot)
    requires ContextOK(c) && Honest(c, s) && !s.committed && !s.crashed
    requires b in Known(s.stmts) && Less(c, s.ballot, b)
    ensures Progress(c, s, BumpToBallot(c, s, b).(again := true))
  {
    var t := BumpToBallot(c, s, b).(again := true);
    if !t.crashed {
      assert Known(t.stmts) == Known(s.stmts);
      SmallerSet(Missing(c, t), Missing(c, s));
      assert b in Above(c, s) && b !in Above(c, t);
      SmallerSet(Above(c, t), Above(c, s));
    }
  }

  lemma CommitEffect(c: Context, s: Slot)
    requires ContextOK(c) && Honest(c, s) && !s.committed && !s.crashed
    ensures AttemptCommitted(c, s) ==
            var st := OwnStatement(c, s.ballot, COMMITTED);
            Store(s, c.self, st).(committed := true, again := true, emitted := s.emitted + [Envelope(c.self, st)])
  {
  }

  lemma FinalProgress(c: Context, s: Slot, t: Slot)
    requires !s.committed && !s.crashed && Honest(c, t) && (t.committed || t.crashed)
    ensures Progress(c, s, t)
  {
  }

  lemma ProgressTransitive(c: Context, s: Slot, t: Slot, u: Slot)
    requires Progress(c, s, t) && Progress(c, t, u)
    ensures Progress(c, s, u)
  {
  }

  lemma PreparingProgress(c: Context, s: Slot)
    requires ContextOK(c) && Honest(c, s) && !s.committed && !s.crashed && !s.pristine
    ensures var t := AttemptPreparing(c, s);
            Progress(c, s, t) && !t.committed && !t.crashed && !t.pristine && t.ballot == s.ballot
  {
    hide Record, Progress;
    SelfProgress(c, s);
    if !Recorded(c, s.stmts, s.ballot, PREPARING) {
      RecordProgress(c, s, PreparingStatement(c, s));
    }
  }

  lemma PreparedProgress(c: Context, s: Slot, b: Ballot)
    requires ContextOK(c) && Honest(c, s) && !s.committed && !s.crashed && b in Relevant(s)
    ensures var t := AttemptPrepared(c, s, b);
            Progress(c, s, t) && !t.committed && !t.crashed && t.pristine == s.pristine && t.ballot == s.ballot &&
            Known(s.stmts) <= Known(t.stmts)
  {
    hide Record, Progress;
    SelfProgress(c, s);
    if !Recorded(c, s.stmts, b, PREPARED) {
      RecordProgress(c, s, OwnStatement(c, b, PREPARED));
    }
  }

  lemma CommittingProgress(c: Context, s: Slot)
    requires ContextOK(c) && Honest(c, s) && !s.committed && !s.crashed
    ensures var t := AttemptCommitting(c, s);
            Progress(c, s, t) && !t.committed && !t.crashed && t.pristine == s.pristine && t.ballot == s.ballot
  {
    hide Record, Progress;
    SelfProgress(c, s);
    if !Recorded(c, s.stmts, s.ballot, COMMITTING) {
      RecordProgress(c, s, OwnStatement(c, s.ballot, COMMITTING));
    }
  }

  lemma CommittedProgress(c: Context, s: Slot)
    requires ContextOK(c) && Honest(c, s) && !s.committed && !s.crashed
    ensures Progress(c, s, AttemptCommitted(c, s)) && AttemptCommitted(c, s).committed
  {
    hide AttemptCommitted;
    CommitEffect(c, s);
  }

  lemma ProgressHonest(c: Context, s: Slot, t: Slot)
    requires Progress(c, s, t)
    ensures Honest(c, t)
  {
  }

  lemma VoteProgress(c: Context, s: Slot)
    requires ContextOK(c) && Honest(c, s) && !s.committed && !s.crashed && !s.pristine
    ensures Progress(c, s, Vote(c, s))
  {
    hide AttemptPreparing, AttemptPrepared, AttemptCommitting, AttemptCommitted, Progress, Honest;
    hide IsPrepared, IsPreparedConfirmed, IsCommitted;
    PreparingProgress(c, s);
    var s1 := AttemptPreparing(c, s);
    ProgressHonest(c, s, s1);
    PreparedProgress(c, s1, s1.ballot);
    SelfProgress(c, s1);
    var s2 := if IsPrepared(c, s1.stmts, s1.ballot.value, s1.ballot) then AttemptPrepared(c, s1, s1.ballot) else s1;
    ProgressHonest(c, s1, s2);
    ProgressTransitive(c, s, s1, s2);
    CommittingProgress(c, s2);
    var s3 := AttemptCommitting(c, s2);
    ProgressHonest(c, s2, s3);
    ProgressTransitive(c, s, s2, s3);
    CommittedProgress(c, s3);
    ProgressTransitive(c, s, s3, AttemptCommitted(c, s3));
  }

  /** Following a confirmed value ends in a commit or in a failed assertion. */
  lemma FollowConfirmedFinal(c: Context, s: Slot, v: Value)
    requires ContextOK(c) && Honest(c, s) && !s.committed && !s.crashed
    ensures var t := FollowConfirmed(c, s, v);
            && Honest(c, t)
            && (t == s || t.committed || t.crashed)
  {
    hide IsCommittedConfirmed, ExternalizeBallot, AttemptCommitted;
    var t := BumpToBallot(c, s, ExternalizeBallot(c, s, v));
    if !t.crashed {
      CommitEffect(c, t);
    }
  }

  lemma FollowPreparedFinal(c: Context, s: Slot, b: Ballot)
    requires s.committed
    ensures FollowPrepared(c, s, b).committed
  {
    hide IsPrepared;
  }

  lemma TryBumpProgress(c: Context, s: Slot, b: Ballot)
    requires ContextOK(c) && Honest(c, s) && !s.committed && !s.crashed && b in Known(s.stmts)
    ensures var t := TryBump(c, s, b); Progress(c, s, t) && (t.committed || t.crashed || Known(s.stmts) <= Known(t.stmts))
  {
    hide IsPrepared, FollowConfirmed, Progress, Honest, AttemptPrepared;
    FollowConfirmedFinal(c, s, b.value);
    var t := FollowConfirmed(c, s, b.value);
    if t.crashed {
      FinalProgress(c, s, t);
    } else if t.committed {
      FollowPreparedFinal(c, t, b);
      CommittedIsHonest(c, FollowPrepared(c, t, b));
      FinalProgress(c, s, FollowPrepared(c, t, b));
    } else {
      SelfProgress(c, s);
      if Less(c, s.ballot, b) {
        BumpProgress(c, s, b);
        assert Known(BumpToBallot(c, s, b).stmts) == Known(s.stmts);
      } else {
        PreparedProgress(c, s, b);
      }
    }
  }

  lemma CommittedIsHonest(c: Context, s: Slot)
    requires s.committed
    ensures Honest(c, s)
  {
  }

  lemma {:induction false} TryBumpsProgress(c: Context, s: Slot, bs: seq<Ballot>)
    requires ContextOK(c) && Honest(c, s) && forall b :: b in bs ==> b in Known(s.stmts)
    ensures Progress(c, s, TryBumps(c, s, bs))
    decreases |bs|
  {
    hide TryBump, Progress, Honest;
    SelfProgress(c, s);
    if |bs| != 0 && !s.committed && !s.externalized && !s.crashed {
      TryBumpProgress(c, s, bs[0]);
      var t := TryBump(c, s, bs[0]);
      ProgressHonest(c, s, t);
      if !t.committed && !t.crashed {
        assert forall b :: b in bs[1..] ==> b in bs;
        TryBumpsProgress(c, t, bs[1..]);
        ProgressTransitive(c, s, t, TryBumps(c, t, bs[1..]));
      }
    }
  }

  lemma MeasureIgnoresFlags(c: Context, s: Slot, t: Slot)
    requires t == s.(again := t.again, heard := t.heard)
    ensures Measure(c, t) == Measure(c, s) && (Honest(c, s) ==> Honest(c, t))
  {
    assert Known(t.stmts) == Known(s.stmts);
    assert Missing(c, t) == Missing(c, s);
    assert Above(c, t) == Above(c, s);
  }

  /** A round that asks for another one leaves a smaller measure behind. */
  lemma PassProgress(c: Context, s: Slot)
    requires ContextOK(c) && Honest(c, s) && !s.crashed
    ensures Progress(c, s, Pass(c, s))
  {
    hide Vote, TryBumps, HearsQuorum, IsCommittedConfirmed, Known, Measure, Honest;
    var s1 := Decide(c, s);
    assert Progress(c, s, s1) by {
      if !s.pristine && !s.committed {
        VoteProgress(c, s);
      } else if s.committed {
        CommittedIsHonest(c, s1);
        CommittedMeasure(c, s1);
      }
    }
    TryBumpsProgress(c, s1, c.order(Known(s1.stmts)));
    var s2 := TryBumps(c, s1, c.order(Known(s1.stmts)));
    MeasureIgnoresFlags(c, s2, Listen(c, s2));
  }

  lemma CommittedMeasure(c: Context, s: Slot)
    requires s.committed
    ensures Measure(c, s) == 0
  {
  }

  /** The whole advancement: rounds until none is asked for. */
  function Advance(c: Context, s: Slot): Slot
    requires ContextOK(c) && Honest(c, s) && !s.crashed && !s.again
    decreases Measure(c, s)
  {
    hide Pass, Measure, Honest;
    var p := Pass(c, s);
    if p.again && !p.crashed then
      PassProgress(c, s);
      MeasureIgnoresFlags(c, p, p.(again := false));
      Advance(c, p.(again := false))
    else p
  }

  // ---------------------------------------------------------------- events

  /** A statement under the node's own name is one it has sent. */
  ghost predicate Genuine(c: Context, s: Slot, env: Envelope)
  {
    env.node == c.self ==> env in s.emitted
  }

  /** Processing either stores the statement under its key, possibly after moving to its ballot,
      or leaves the statements alone. */
  lemma AcceptEffect(c: Context, s: Slot, env: Envelope)
    requires !s.crashed
    ensures var o, st := Accept(c, s, env), env.statement;
      o.stored ==>
        && (!s.committed || st.kind == COMMITTED)
        && (st.kind == COMMITTED ==> !HasCommitted(s.stmts, env.node))
        && (st.kind == COMMITTING ==> Key(st.ballot, PREPARED, env.node) in s.stmts)
        && (o.slot == Store(s, env.node, st)
            || (st.kind == PREPARING && (s.pristine || Less(c, s.ballot, st.ballot)) && MayBump(c, s, st.ballot) &&
                o.slot == Store(s.(ballot := st.ballot, pristine := false, heard := false), env.node, st)))
        && (st.kind == PREPARING && o.slot == Store(s, env.node, st) ==> !s.pristine && !Less(c, s.ballot, st.ballot))
    ensures var o := Accept(c, s, env);
      !o.stored ==>
        || o.slot == s
        || (o.slot == s.(crashed := true) && !s.committed && env.statement.kind == PREPARING &&
            (s.pristine || Less(c, s.ballot, env.statement.ballot)) && !MayBump(c, s, env.statement.ballot))
        || (s.committed && o.slot == Emit(c, s, OwnStatement(c, s.ballot, COMMITTED)))
  {
    hide Contradicted, HasCommitted, MayBump;
  }

  lemma AcceptHonest(c: Context, s: Slot, env: Envelope)
    requires Honest(c, s) && Genuine(c, s, env) && !s.crashed
    ensures Honest(c, Accept(c, s, env).slot)
  {
    hide Accept, MayBump;
    AcceptEffect(c, s, env);
  }

  datatype Reply = Reply(slot: Slot, answers: seq<Answer>)

  /** An envelope arrives from the network. */
  function Deliver(c: Context, s: Slot, env: Envelope): Reply
    requires ContextOK(c) && Honest(c, s) && !s.crashed && !s.again && Genuine(c, s, env)
  {
    var o := Accept(c, s, env);
    AcceptHonest(c, s, env);
    if o.stored then Reply(Advance(c, o.slot), o.answers) else Reply(o.slot, o.answers)
  }

  /** The ballot a proposal moves to. */
  function ProposedBallot(c: Context, s: Slot, v: Value, force: bool): Ballot
  {
    if force || (!s.pristine && c.rank(s.ballot.counter, v) < c.rank(s.ballot.counter, s.ballot.value))
    then Ballot(Next(s.ballot.counter), v)
    else Ballot(s.ballot.counter, v)
  }

  /** The local node proposes a value. */
  function Propose(c: Context, s: Slot, v: Value, force: bool): Slot
    requires ContextOK(c) && Honest(c, s) && !s.crashed && !s.again
  {
    if s.committed then s
    else
      var t := BumpToBallot(c, s, ProposedBallot(c, s, v, force));
      if t.crashed then t else Advance(c, t)
  }
}
