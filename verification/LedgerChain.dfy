/** Ledger headers, the chain they form, and closing a ledger. Sequence numbers are 32-bit. */
module LedgerChain {
  import opened Options
  import opened Division

  const SEQ_LIMIT := 0x1_0000_0000

  /** `contents` stands for the fields that applying the transactions decides. */
  datatype Header = Header(ledgerSeq: nat, previousLedgerHash: nat, txSetHash: nat, baseFee: nat, closeTime: nat, contents: nat)

  /** A header together with the hash claimed for it. */
  datatype Entry = Entry(header: Header, hash: nat)

  /** What consensus decided about one ledger. */
  datatype CloseData = CloseData(ledgerSeq: nat, previousLedgerHash: nat, txSetHash: nat, baseFee: nat, closeTime: nat)

  /** Hashing, the effect of the transactions, and the checkpoint spacing. */
  datatype Network = Network(hash: Header -> nat, run: (Header, CloseData) -> nat, frequency: nat)

  function Seq32(n: nat): nat
  {
    n % SEQ_LIMIT
  }

  predicate GoodEntry(net: Network, e: Entry)
  {
    net.hash(e.header) == e.hash && e.header.ledgerSeq < SEQ_LIMIT
  }

  /** The header under construction on top of a closed ledger. */
  function NextHeader(e: Entry): Header
  {
    e.header.(ledgerSeq := Seq32(e.header.ledgerSeq + 1), previousLedgerHash := e.hash)
  }

  /** The ledger closed on top of `e`. */
  function Closed(net: Network, e: Entry, d: CloseData): Entry
  {
    var h := NextHeader(e).(txSetHash := d.txSetHash, baseFee := d.baseFee, closeTime := d.closeTime,
                            contents := net.run(NextHeader(e), d));
    Entry(h, net.hash(h))
  }

  /** Consecutive ledgers, the first being `first`. */
  ghost predicate Contiguous(buffer: seq<CloseData>, first: nat)
  {
    forall i :: 0 <= i < |buffer| ==> buffer[i].ledgerSeq == Seq32(first + i)
  }

  // ---------------------------------------------------------------- candidates of catch-up

  datatype Verdict = HashOK | HashBad | HashUnknown

  function FirstAt(buffer: seq<CloseData>, s: nat): Option<nat>
  {
    if |buffer| == 0 then None
    else if buffer[0].ledgerSeq == s then Some(buffer[0].previousLedgerHash)
    else FirstAt(buffer[1..], s)
  }

  /** The hash the ledger manager knows for ledger `s`, if it knows one. */
  function Trusted(lastClosed: Entry, current: Header, buffer: seq<CloseData>, s: nat): Option<nat>
  {
    if lastClosed.header.ledgerSeq == s then Some(lastClosed.hash)
    else if lastClosed.header.ledgerSeq == Seq32(s + 1) then Some(lastClosed.header.previousLedgerHash)
    else if current.ledgerSeq == Seq32(s + 1) then Some(current.previousLedgerHash)
    else FirstAt(buffer, Seq32(s + 1))
  }

  function Judge(trusted: Option<nat>, candidate: Entry): Verdict
  {
    match trusted
    case None => HashUnknown
    case Some(h) => if h == candidate.hash then HashOK else HashBad
  }

  /** In a contiguous buffer the hash known for a ledger is the one its successor names. */
  lemma {:induction false} FirstAtContiguous(buffer: seq<CloseData>, first: nat, i: nat)
    requires Contiguous(buffer, first) && i < |buffer| && first + |buffer| <= SEQ_LIMIT
    ensures FirstAt(buffer, first + i) == Some(buffer[i].previousLedgerHash)
  {
    if i > 0 {
      assert buffer[0].ledgerSeq == Seq32(first);
      forall j | 0 <= j < |buffer[1..]| ensures buffer[1..][j].ledgerSeq == Seq32(first + 1 + j) {
        assert buffer[1..][j] == buffer[j + 1];
      }
      FirstAtContiguous(buffer[1..], first + 1, i - 1);
    }
  }

  // ---------------------------------------------------------------- checkpoints

  /** The next checkpoint at or after a ledger; the sum is a 32-bit one. */
  function NextCheckpoint(net: Network, ledger: nat, manual: bool): nat
    requires net.frequency > 0
  {
    if manual then ledger
    else if ledger == 0 then net.frequency
    else Multiple(Seq32(ledger + net.frequency - 1), net.frequency)
  }

  /** The largest multiple of `f` that is at most `n`. */
  function Multiple(n: nat, f: nat): (m: nat)
    requires f > 0
    ensures n - f < m <= n
  {
    DivMod(n, f);
    n / f * f
  }

  /** Rounding up gives the first multiple at or above the ledger exactly when the sum does not wrap. */
  lemma NextCheckpointIff(net: Network, ledger: nat)
    requires net.frequency == 8 || net.frequency == 64
    requires 0 < ledger < SEQ_LIMIT
    ensures var next := NextCheckpoint(net, ledger, false);
            && next % net.frequency == 0
            && (ledger <= next <==> ledger + net.frequency - 1 < SEQ_LIMIT)
            && (ledger <= next ==> next < ledger + net.frequency && next < SEQ_LIMIT)
            && (ledger > next ==> next == 0)
  {
    var f := net.frequency;
    var sum := ledger + f - 1;
    MultipleIsMultiple(Seq32(sum), f);
    hide Multiple;
    if sum < SEQ_LIMIT {
      assert Seq32(sum) == sum;
    } else {
      assert Seq32(sum) == sum - SEQ_LIMIT < f;
    }
  }

  /** The genesis ledger is not taken for a checkpoint: from ledger 0 the next one is that of ledger 1. */
  lemma FirstCheckpoint(net: Network)
    requires net.frequency == 8 || net.frequency == 64
    ensures NextCheckpoint(net, 0, false) == NextCheckpoint(net, 1, false) == net.frequency
  {
    hide Multiple;
    NextCheckpointIff(net, 1);
    DivisionUnique(net.frequency, 1, 0);
    OnlyMultiple(net.frequency, Multiple(net.frequency, net.frequency), net.frequency);
  }

  lemma MultipleIsMultiple(n: nat, f: nat)
    requires f > 0
    ensures Multiple(n, f) % f == 0 && (n < f ==> Multiple(n, f) == 0)
  {
    DivMod(n, f);
    DivisionUnique(f, n / f, 0);
    if n < f {
      DivisionUnique(f, 0, n);
    }
  }

  // ---------------------------------------------------------------- replaying buffered closes

  datatype Outcome =
    | Done
    | TxSetMismatch
    | AssertionFailed
    | InvalidHeader
    | ConsensusInconsistency
    | AlreadyInProgress
    | Restarted(init: nat)

  /** At the knit-up point the buffered data and the closed ledger are the same. */
  predicate Knits(e: Entry, d: CloseData)
  {
    d.txSetHash == e.header.txSetHash && d.baseFee == e.header.baseFee && d.closeTime == e.header.closeTime
  }

  datatype Replayed = Replayed(outcome: Outcome, lastClosed: Entry, closes: seq<CloseData>)

  /** Replaying the buffer on top of `e`: what was closed, and how it ended. */
  function Replay(net: Network, e: Entry, buffer: seq<CloseData>, init: nat): Replayed
    decreases |buffer|
  {
    if |buffer| == 0 then Replayed(Done, e, [])
    else
      var d, expected := buffer[0], Seq32(e.header.ledgerSeq + 1);
      if d.ledgerSeq < expected then
        if d.ledgerSeq == e.header.ledgerSeq && !Knits(e, d) then Replayed(AssertionFailed, e, [])
        else Replay(net, e, buffer[1..], init)
      else if d.ledgerSeq == expected then
        if d.previousLedgerHash != e.hash then Replayed(TxSetMismatch, e, [])
        else
          var r := Replay(net, Closed(net, e, d), buffer[1..], init);
          r.(closes := [d] + r.closes)
      else Replayed(Restarted(init), e, [])
  }

  /** The ways a replay can end. */
  lemma {:induction false} ReplayOutcomes(net: Network, e: Entry, buffer: seq<CloseData>, init: nat)
    ensures var o := Replay(net, e, buffer, init).outcome; o.Done? || o.TxSetMismatch? || o.AssertionFailed? || o.Restarted?
    decreases |buffer|
  {
    hide Closed, Seq32, Knits;
    if |buffer| > 0 {
      ReplayOutcomes(net, e, buffer[1..], init);
      ReplayOutcomes(net, Closed(net, e, buffer[0]), buffer[1..], init);
    }
  }

  /** The closes connect: each names the hash of the ledger closed before it. */
  predicate Connected(net: Network, e: Entry, ds: seq<CloseData>)
    decreases |ds|
  {
    |ds| == 0 || (ds[0].previousLedgerHash == e.hash && Connected(net, Closed(net, e, ds[0]), ds[1..]))
  }

  function CloseAll(net: Network, e: Entry, ds: seq<CloseData>): Entry
    decreases |ds|
  {
    if |ds| == 0 then e else CloseAll(net, Closed(net, e, ds[0]), ds[1..])
  }

  lemma ContiguousTail(buffer: seq<CloseData>, first: nat)
    requires |buffer| > 0 && Contiguous(buffer, first)
    ensures Contiguous(buffer[1..], first + 1)
  {
    forall j | 0 <= j < |buffer[1..]| ensures buffer[1..][j].ledgerSeq == Seq32(first + 1 + j) {
      assert buffer[1..][j] == buffer[j + 1];
    }
  }

  lemma Seq32Successor(n: nat)
    ensures Seq32(Seq32(n) + 1) == Seq32(n + 1)
  {
  }

  lemma SeqOfClosed(net: Network, e: Entry, d: CloseData)
    ensures Closed(net, e, d).header.ledgerSeq == Seq32(e.header.ledgerSeq + 1)
  {
  }

  /** From the ledger after the last closed one on, the whole buffer is closed, each ledger once
      and in order, unless one does not connect. */
  lemma {:induction false} ReplayCloses(net: Network, e: Entry, buffer: seq<CloseData>, init: nat, n: nat)
    requires Contiguous(buffer, n + 1) && e.header.ledgerSeq == Seq32(n)
    ensures var r := Replay(net, e, buffer, init);
            if Connected(net, e, buffer)
            then r == Replayed(Done, CloseAll(net, e, buffer), buffer) && r.lastClosed.header.ledgerSeq == Seq32(n + |buffer|)
            else r.outcome == TxSetMismatch && |r.closes| < |buffer| && r.closes == buffer[..|r.closes|]
    decreases |buffer|
  {
    hide Seq32, Closed;
    Seq32Successor(n);
    if |buffer| > 0 {
      assert buffer[0].ledgerSeq == Seq32(n + 1 + 0);
      ContiguousTail(buffer, n + 1);
      SeqOfClosed(net, e, buffer[0]);
      var rest := Closed(net, e, buffer[0]);
      ReplayCloses(net, rest, buffer[1..], init, n + 1);
      assert buffer == [buffer[0]] + buffer[1..];
    }
  }

  /** Buffered ledgers up to the last closed one are dropped; only the last of them is compared. */
  lemma {:induction false} ReplaySkips(net: Network, e: Entry, buffer: seq<CloseData>, init: nat, first: nat)
    requires Contiguous(buffer, first) && first <= e.header.ledgerSeq + 1 < SEQ_LIMIT
    ensures var k := e.header.ledgerSeq + 1 - first;
            Replay(net, e, buffer, init) ==
            if |buffer| < k then Replayed(Done, e, [])
            else if k > 0 && !Knits(e, buffer[k - 1]) then Replayed(AssertionFailed, e, [])
            else Replay(net, e, buffer[k..], init)
    decreases |buffer|
  {
    var k := e.header.ledgerSeq + 1 - first;
    if |buffer| > 0 && k > 0 {
      assert buffer[0].ledgerSeq == Seq32(first + 0);
      assert Seq32(first) == first && Seq32(e.header.ledgerSeq + 1) == e.header.ledgerSeq + 1;
      ContiguousTail(buffer, first);
      ReplaySkips(net, e, buffer[1..], init, first + 1);
      assert |buffer| >= k ==> buffer[1..][k - 1..] == buffer[k..];
    }
  }

  lemma ContiguousFrom(buffer: seq<CloseData>, first: nat, k: nat)
    requires Contiguous(buffer, first) && k <= |buffer|
    ensures Contiguous(buffer[k..], first + k)
  {
    forall j | 0 <= j < |buffer[k..]| ensures buffer[k..][j].ledgerSeq == Seq32(first + k + j) {
      assert buffer[k..][j] == buffer[k + j];
    }
  }

  lemma NothingLeft(net: Network, e: Entry)
    ensures Connected(net, e, []) && CloseAll(net, e, []) == e
  {
  }

  /** The whole replay for a buffer that is contiguous from a ledger not above the next one to
      close: exactly the remaining buffered ledgers are closed, once each and in order, and the
      overshoot branch is not taken. */
  lemma ReplayExact(net: Network, e: Entry, buffer: seq<CloseData>, init: nat, first: nat)
    requires Contiguous(buffer, first) && first <= e.header.ledgerSeq + 1 < SEQ_LIMIT
    ensures var r, k := Replay(net, e, buffer, init), e.header.ledgerSeq + 1 - first;
            if |buffer| <= k then
              r == Replayed(if 0 < k == |buffer| && !Knits(e, buffer[k - 1]) then AssertionFailed else Done, e, [])
            else if k > 0 && !Knits(e, buffer[k - 1]) then r == Replayed(AssertionFailed, e, [])
            else if Connected(net, e, buffer[k..]) then
              && r == Replayed(Done, CloseAll(net, e, buffer[k..]), buffer[k..])
              && r.lastClosed.header.ledgerSeq == buffer[|buffer| - 1].ledgerSeq
            else r.outcome == TxSetMismatch && |r.closes| < |buffer| - k && r.closes == buffer[k..k + |r.closes|]
  {
    hide Replay, Connected, CloseAll;
    var k := e.header.ledgerSeq + 1 - first;
    ReplaySkips(net, e, buffer, init, first);
    if k <= |buffer| {
      ContiguousFrom(buffer, first, k);
      assert Seq32(e.header.ledgerSeq) == e.header.ledgerSeq;
      hide Seq32;
      ReplayCloses(net, e, buffer[k..], init, e.header.ledgerSeq);
      if |buffer| == k {
        NothingLeft(net, e);
        assert buffer[k..] == [];
      } else {
        assert buffer[|buffer| - 1].ledgerSeq == Seq32(first + (|buffer| - 1));
        assert e.header.ledgerSeq + (|buffer| - k) == first + (|buffer| - 1);
      }
    }
  }

  /** The overshoot branch is taken exactly when the first buffered ledger lies beyond the next one. */
  lemma OvershootIff(net: Network, e: Entry, buffer: seq<CloseData>, init: nat, first: nat)
    requires Contiguous(buffer, first) && first < SEQ_LIMIT && e.header.ledgerSeq + 1 < SEQ_LIMIT && |buffer| > 0
    ensures Replay(net, e, buffer, init).outcome.Restarted? <==> first > e.header.ledgerSeq + 1
  {
    assert buffer[0].ledgerSeq == Seq32(first + 0);
    if first <= e.header.ledgerSeq + 1 {
      ReplayExact(net, e, buffer, init, first);
    }
  }

  /** When history hands back the ledger before the rounded-up checkpoint, the buffer that began
      with the triggering ledger always overlaps it, so replay cannot overshoot. */
  lemma CheckpointOverlaps(net: Network, e: Entry, buffer: seq<CloseData>, init: nat, restart: nat)
    requires (net.frequency == 8 || net.frequency == 64) && init < SEQ_LIMIT
    requires Contiguous(buffer, init) && e.header.ledgerSeq + 1 == NextCheckpoint(net, init, false)
    ensures init <= e.header.ledgerSeq + 1 < SEQ_LIMIT
    ensures !Replay(net, e, buffer, restart).outcome.Restarted?
  {
    if init > 0 {
      NextCheckpointIff(net, init);
    }
    ReplayExact(net, e, buffer, restart, init);
  }

  lemma OnlyMultiple(n: nat, m: nat, f: nat)
    requires f > 0 && m % f == 0 && n <= m < n + f
    ensures n == m <==> n % f == 0
  {
    if n % f == 0 {
      DivMod(n, f);
      DivisionUnique(f, n / f, m - n);
    }
  }

  /** A candidate approved against the buffer is one the first replayed ledger connects to. */
  lemma ApprovedCandidateConnects(net: Network, lastClosed: Entry, current: Header, buffer: seq<CloseData>,
                                  first: nat, candidate: Entry)
    requires Contiguous(buffer, first) && first + |buffer| <= SEQ_LIMIT
    requires first <= candidate.header.ledgerSeq + 1 < first + |buffer|
    requires lastClosed.header.ledgerSeq != candidate.header.ledgerSeq
    requires lastClosed.header.ledgerSeq != candidate.header.ledgerSeq + 1
    requires current.ledgerSeq != candidate.header.ledgerSeq + 1
    ensures Judge(Trusted(lastClosed, current, buffer, candidate.header.ledgerSeq), candidate) == HashOK
            <==> buffer[candidate.header.ledgerSeq + 1 - first].previousLedgerHash == candidate.hash
  {
    FirstAtContiguous(buffer, first, candidate.header.ledgerSeq + 1 - first);
  }

  /** A contiguous buffer knows a hash for exactly the ledgers before the buffered ones. */
  lemma {:induction false} FirstAtIff(buffer: seq<CloseData>, first: nat, s: nat)
    requires Contiguous(buffer, first) && first + |buffer| <= SEQ_LIMIT
    ensures FirstAt(buffer, s).Some? <==> first <= s < first + |buffer|
    decreases |buffer|
  {
    if |buffer| > 0 {
      assert buffer[0].ledgerSeq == Seq32(first + 0);
      assert Seq32(first) == first;
      ContiguousTail(buffer, first);
      FirstAtIff(buffer[1..], first + 1, s);
    }
  }

  /** The candidate is approved by a manager whose last closed ledger and buffer these are. */
  predicate Approved(lastClosed: Entry, buffer: seq<CloseData>, candidate: Entry)
  {
    Judge(Trusted(lastClosed, NextHeader(lastClosed), buffer, candidate.header.ledgerSeq), candidate) == HashOK
  }

  /** What a manager knows a hash for: its last closed ledger, the one before it, and the ledgers
      before the buffered ones. */
  lemma TrustedIff(lastClosed: Entry, buffer: seq<CloseData>, first: nat, s: nat)
    requires Contiguous(buffer, first) && first + |buffer| <= SEQ_LIMIT
    requires lastClosed.header.ledgerSeq < SEQ_LIMIT && s + 1 < SEQ_LIMIT
    ensures Trusted(lastClosed, NextHeader(lastClosed), buffer, s).Some? <==>
            || s == lastClosed.header.ledgerSeq || s + 1 == lastClosed.header.ledgerSeq
            || first <= s + 1 < first + |buffer|
  {
    FirstAtIff(buffer, first, s + 1);
  }

  /** Which hash that is: that of the last closed ledger, the one it names as its predecessor's, or
      the one the buffered successor names. */
  lemma TrustedIs(lastClosed: Entry, buffer: seq<CloseData>, first: nat, s: nat)
    requires Contiguous(buffer, first) && first + |buffer| <= SEQ_LIMIT
    requires lastClosed.header.ledgerSeq < SEQ_LIMIT && s + 1 < SEQ_LIMIT
    ensures var h, lcl := Trusted(lastClosed, NextHeader(lastClosed), buffer, s), lastClosed.header.ledgerSeq;
            && (s == lcl ==> h == Some(lastClosed.hash))
            && (s + 1 == lcl ==> h == Some(lastClosed.header.previousLedgerHash))
            && (s != lcl && s + 1 != lcl && first <= s + 1 < first + |buffer| ==>
                  h == Some(buffer[s + 1 - first].previousLedgerHash))
  {
    NextNumber(s);
    NextNumber(lastClosed.header.ledgerSeq);
    hide Seq32, FirstAt;
    if first <= s + 1 < first + |buffer| {
      FirstAtContiguous(buffer, first, s + 1 - first);
    }
  }

  lemma NextNumber(s: nat)
    requires s < SEQ_LIMIT
    ensures Seq32(s + 1) == if s + 1 == SEQ_LIMIT then 0 else s + 1
  {
  }

  /** An approved candidate that makes replay overshoot is the last closed ledger or the one before it. */
  lemma ApprovedOvershoot(net: Network, lastClosed: Entry, buffer: seq<CloseData>, first: nat, candidate: Entry, restart: nat)
    requires Contiguous(buffer, first) && first + |buffer| <= SEQ_LIMIT
    requires lastClosed.header.ledgerSeq < SEQ_LIMIT && candidate.header.ledgerSeq + 1 < SEQ_LIMIT
    requires Approved(lastClosed, buffer, candidate) && Replay(net, candidate, buffer, restart).outcome.Restarted?
    ensures || candidate.header.ledgerSeq == lastClosed.header.ledgerSeq
            || candidate.header.ledgerSeq + 1 == lastClosed.header.ledgerSeq
  {
    TrustedIff(lastClosed, buffer, first, candidate.header.ledgerSeq);
    hide Trusted;
    if |buffer| > 0 {
      OvershootIff(net, candidate, buffer, restart, first);
    }
  }

  /** The checkpoint at or after a ledger, when there is one. */
  lemma CheckpointAbove(net: Network, init: nat)
    requires (net.frequency == 8 || net.frequency == 64) && init < SEQ_LIMIT && NextCheckpoint(net, init, false) > 0
    ensures init <= NextCheckpoint(net, init, false) < SEQ_LIMIT
    ensures 0 < init ==> (NextCheckpoint(net, init, false) == init <==> init % net.frequency == 0)
  {
    if init > 0 {
      NextCheckpointIff(net, init);
      hide NextCheckpoint;
      OnlyMultiple(init, NextCheckpoint(net, init, false), net.frequency);
    }
  }

  /** A catch-up restarted beyond the next ledger never overshoots: what would make it overshoot is
      not approved. */
  lemma RestartNeverOvershoots(net: Network, lastClosed: Entry, buffer: seq<CloseData>, first: nat, init: nat,
                               candidate: Entry, restart: nat)
    requires (net.frequency == 8 || net.frequency == 64) && init < SEQ_LIMIT
    requires Contiguous(buffer, first) && first + |buffer| <= SEQ_LIMIT && lastClosed.header.ledgerSeq + 1 < init
    requires candidate.header.ledgerSeq + 1 == NextCheckpoint(net, init, false)
    requires Approved(lastClosed, buffer, candidate)
    ensures !Replay(net, candidate, buffer, restart).outcome.Restarted?
  {
    hide NextCheckpoint, Replay, Approved;
    CheckpointAbove(net, init);
    if Replay(net, candidate, buffer, restart).outcome.Restarted? {
      ApprovedOvershoot(net, lastClosed, buffer, first, candidate, restart);
    }
  }

  /** A restarted catch-up whose buffer begins with the ledger after its start knows nothing of its
      candidate exactly when it started at a checkpoint, or while the buffer does not reach the
      candidate yet. In the first case it waits for ever. */
  lemma RestartUnknown(net: Network, lastClosed: Entry, buffer: seq<CloseData>, init: nat, candidate: Entry)
    requires (net.frequency == 8 || net.frequency == 64) && init + 1 + |buffer| <= SEQ_LIMIT
    requires Contiguous(buffer, init + 1) && lastClosed.header.ledgerSeq + 1 < init
    requires candidate.header.ledgerSeq + 1 == NextCheckpoint(net, init, false)
    ensures Judge(Trusted(lastClosed, NextHeader(lastClosed), buffer, candidate.header.ledgerSeq), candidate) == HashUnknown
            <==> init % net.frequency == 0 || candidate.header.ledgerSeq >= init + |buffer|
  {
    hide NextCheckpoint;
    CheckpointAbove(net, init);
    TrustedIff(lastClosed, buffer, init + 1, candidate.header.ledgerSeq);
    hide Trusted;
  }

  /** The first replayed close of an approved candidate beyond the last closed ledger connects: a
      mismatch can only come after it. */
  lemma ApprovedFirstCloses(net: Network, lastClosed: Entry, buffer: seq<CloseData>, first: nat, candidate: Entry, restart: nat)
    requires Contiguous(buffer, first) && first + |buffer| <= SEQ_LIMIT
    requires lastClosed.header.ledgerSeq < candidate.header.ledgerSeq && candidate.header.ledgerSeq + 1 < SEQ_LIMIT
    requires Approved(lastClosed, buffer, candidate)
    ensures var r := Replay(net, candidate, buffer, restart); r.outcome == TxSetMismatch ==> |r.closes| > 0
  {
    var s := candidate.header.ledgerSeq;
    if first <= s + 1 < first + |buffer| {
      ApprovedCandidateConnects(net, lastClosed, NextHeader(lastClosed), buffer, first, candidate);
      hide Trusted, Approved, Replay;
      var k := s + 1 - first;
      ReplaySkips(net, candidate, buffer, restart, first);
      assert buffer[k].ledgerSeq == Seq32(first + k);
      FirstCloses(net, candidate, buffer[k..], restart);
    } else if |buffer| > 0 {
      NoneToClose(net, candidate, buffer, first, restart);
    }
  }

  lemma FirstCloses(net: Network, e: Entry, buffer: seq<CloseData>, restart: nat)
    requires |buffer| > 0 && buffer[0].ledgerSeq == Seq32(e.header.ledgerSeq + 1) && buffer[0].previousLedgerHash == e.hash
    ensures |Replay(net, e, buffer, restart).closes| > 0
  {
    hide Closed, Seq32;
  }

  lemma NoneToClose(net: Network, e: Entry, buffer: seq<CloseData>, first: nat, restart: nat)
    requires Contiguous(buffer, first) && first + |buffer| <= SEQ_LIMIT && |buffer| > 0 && e.header.ledgerSeq + 1 < SEQ_LIMIT
    requires !(first <= e.header.ledgerSeq + 1 < first + |buffer|)
    ensures Replay(net, e, buffer, restart).outcome != TxSetMismatch
  {
    hide Replay;
    OvershootIff(net, e, buffer, restart, first);
    if first <= e.header.ledgerSeq + 1 {
      ReplayExact(net, e, buffer, restart, first);
    }
  }

  // ---------------------------------------------------------------- chains of headers

  function LastOf(prev: Entry, chain: seq<Entry>): Entry
  {
    if |chain| == 0 then prev else chain[|chain| - 1]
  }

  ghost predicate LinkedAt(net: Network, prev: Entry, chain: seq<Entry>, i: nat)
    requires i < |chain|
  {
    && chain[i].hash == net.hash(chain[i].header)
    && chain[i].header.previousLedgerHash == LastOf(prev, chain[..i]).hash
    && chain[i].header.ledgerSeq == Seq32(prev.header.ledgerSeq + 1 + i)
  }

  /** An unbroken, correctly hashed chain on top of `prev`. */
  ghost predicate Chained(net: Network, prev: Entry, chain: seq<Entry>)
  {
    forall i :: 0 <= i < |chain| ==> LinkedAt(net, prev, chain, i)
  }

  /** Scanning header entries on top of `prev`: the ones accepted, or None at the first bad one. */
  function Scan(net: Network, prev: Entry, entries: seq<Entry>): Option<seq<Entry>>
  {
    if |entries| == 0 then Some([])
    else ScanOne(net, prev, Scan(net, prev, entries[..|entries| - 1]), entries[|entries| - 1])
  }

  /** One step of the scan. */
  function ScanOne(net: Network, prev: Entry, front: Option<seq<Entry>>, curr: Entry): Option<seq<Entry>>
  {
    if front.None? then None
    else
      var last := LastOf(prev, front.value);
      var expected := Seq32(last.header.ledgerSeq + 1);
      if curr.header.ledgerSeq < expected then front
      else if curr.header.ledgerSeq > expected || !Links(net, last, curr) then None
      else Some(front.value + [curr])
  }

  lemma ScanSnoc(net: Network, prev: Entry, entries: seq<Entry>, x: Entry)
    ensures Scan(net, prev, entries + [x]) == ScanOne(net, prev, Scan(net, prev, entries), x)
  {
    assert (entries + [x])[..|entries|] == entries;
  }

  predicate Links(net: Network, prev: Entry, curr: Entry)
  {
    net.hash(curr.header) == curr.hash && prev.hash == curr.header.previousLedgerHash
  }

  lemma LinkedInPrefix(net: Network, prev: Entry, chain: seq<Entry>, more: seq<Entry>, i: nat)
    requires i < |chain|
    ensures LinkedAt(net, prev, chain + more, i) <==> LinkedAt(net, prev, chain, i)
  {
    assert (chain + more)[..i] == chain[..i];
  }

  lemma LastSeq(net: Network, prev: Entry, chain: seq<Entry>)
    requires prev.header.ledgerSeq < SEQ_LIMIT && Chained(net, prev, chain)
    ensures LastOf(prev, chain).header.ledgerSeq == Seq32(prev.header.ledgerSeq + |chain|)
  {
    if |chain| > 0 {
      assert LinkedAt(net, prev, chain, |chain| - 1);
    }
  }

  lemma ChainedSnoc(net: Network, prev: Entry, chain: seq<Entry>, e: Entry)
    requires prev.header.ledgerSeq < SEQ_LIMIT && Chained(net, prev, chain)
    ensures Chained(net, prev, chain + [e]) <==>
            Links(net, LastOf(prev, chain), e) && e.header.ledgerSeq == Seq32(LastOf(prev, chain).header.ledgerSeq + 1)
  {
    var n := |chain|;
    LastSeq(net, prev, chain);
    Seq32Successor(prev.header.ledgerSeq + n);
    assert LinkedAt(net, prev, chain + [e], n) <==>
           Links(net, LastOf(prev, chain), e) && e.header.ledgerSeq == Seq32(LastOf(prev, chain).header.ledgerSeq + 1) by {
      assert (chain + [e])[..n] == chain && (chain + [e])[n] == e;
    }
    forall i | 0 <= i < n ensures LinkedAt(net, prev, chain + [e], i) {
      LinkedInPrefix(net, prev, chain, [e], i);
    }
    hide LinkedAt, Links, Seq32;
  }

  lemma ChainedPrefix(net: Network, prev: Entry, chain: seq<Entry>, n: nat)
    requires Chained(net, prev, chain) && n <= |chain|
    ensures Chained(net, prev, chain[..n])
  {
    assert chain == chain[..n] + chain[n..];
    forall i | 0 <= i < n ensures LinkedAt(net, prev, chain[..n], i) {
      assert LinkedAt(net, prev, chain, i);
      LinkedInPrefix(net, prev, chain[..n], chain[n..], i);
    }
  }

  /** What a scan accepts is an unbroken, correctly hashed chain. */
  lemma {:induction false} ScanIsChained(net: Network, prev: Entry, entries: seq<Entry>)
    requires prev.header.ledgerSeq < SEQ_LIMIT
    ensures var r := Scan(net, prev, entries);
            r.Some? ==> Chained(net, prev, r.value) && |r.value| <= |entries| && forall e :: e in r.value ==> e in entries
  {
    hide Chained, Links, Seq32;
    if |entries| == 0 {
      ChainedNone(net, prev);
    } else {
      var front := entries[..|entries| - 1];
      ScanIsChained(net, prev, front);
      var r := Scan(net, prev, front);
      if r.Some? {
        ChainedSnoc(net, prev, r.value, entries[|entries| - 1]);
      }
    }
  }

  lemma ChainedNone(net: Network, prev: Entry)
    ensures Chained(net, prev, [])
  {
  }

  /** A list with no prehistory in it is accepted whole exactly when it is such a chain. */
  lemma {:induction false} ScanAcceptsIff(net: Network, prev: Entry, entries: seq<Entry>)
    requires prev.header.ledgerSeq < SEQ_LIMIT
    ensures Scan(net, prev, entries) == Some(entries) <==> Chained(net, prev, entries)
  {
    ScanIsChained(net, prev, entries);
    hide Seq32, Links, Chained;
    if |entries| > 0 && Chained(net, prev, entries) {
      var front, e := entries[..|entries| - 1], entries[|entries| - 1];
      ChainedPrefix(net, prev, entries, |entries| - 1);
      ScanAcceptsIff(net, prev, front);
      assert entries == front + [e];
      ChainedSnoc(net, prev, front, e);
    }
  }

  /** Entries of ledgers already passed are ignored, wherever they occur. */
  lemma {:induction false} PrehistoryIgnored(net: Network, prev: Entry, before: seq<Entry>, e: Entry, after: seq<Entry>)
    requires Scan(net, prev, before).Some?
    requires e.header.ledgerSeq < Seq32(LastOf(prev, Scan(net, prev, before).value).header.ledgerSeq + 1)
    ensures Scan(net, prev, before + [e] + after) == Scan(net, prev, before + after)
    decreases |after|
  {
    hide Scan, Seq32, Links;
    if |after| == 0 {
      assert before + [e] + after == before + [e] && before + after == before;
      ScanSnoc(net, prev, before, e);
    } else {
      var front, x := after[..|after| - 1], after[|after| - 1];
      PrehistoryIgnored(net, prev, before, e, front);
      assert before + [e] + after == before + [e] + front + [x];
      assert before + after == before + front + [x];
      ScanSnoc(net, prev, before + [e] + front, x);
      ScanSnoc(net, prev, before + front, x);
    }
  }

  lemma {:induction false} ScanStaysBad(net: Network, prev: Entry, entries: seq<Entry>, more: seq<Entry>)
    requires Scan(net, prev, entries).None?
    ensures Scan(net, prev, entries + more).None?
    decreases |more|
  {
    if |more| == 0 {
      assert entries + more == entries;
    } else {
      var front, x := more[..|more| - 1], more[|more| - 1];
      ScanStaysBad(net, prev, entries, front);
      assert entries + more == entries + front + [x];
      ScanSnoc(net, prev, entries + front, x);
    }
  }

  /** An entry that is not of a ledger already passed and does not continue the chain spoils the
      whole download, whatever follows. */
  lemma ScanRejects(net: Network, prev: Entry, before: seq<Entry>, e: Entry, after: seq<Entry>)
    requires prev.header.ledgerSeq < SEQ_LIMIT && Scan(net, prev, before).Some?
    requires e.header.ledgerSeq >= Seq32(LastOf(prev, Scan(net, prev, before).value).header.ledgerSeq + 1)
    ensures !Chained(net, prev, Scan(net, prev, before).value + [e]) ==> Scan(net, prev, before + [e] + after).None?
  {
    hide Scan, Seq32, Links, Chained;
    var chain := Scan(net, prev, before).value;
    ScanIsChained(net, prev, before);
    ScanSnoc(net, prev, before, e);
    ChainedSnoc(net, prev, chain, e);
    if !Chained(net, prev, chain + [e]) {
      ScanStaysBad(net, prev, before + [e], after);
    }
  }

  ghost predicate CollisionFree(net: Network)
  {
    forall x, y :: net.hash(x) == net.hash(y) ==> x == y
  }

  /** Two chains of one length on one ledger that end in the same hash are the same chain. */
  lemma {:induction false} SameEndSameChain(net: Network, prev: Entry, a: seq<Entry>, b: seq<Entry>)
    requires CollisionFree(net)
    requires Chained(net, prev, a) && Chained(net, prev, b) && |a| == |b|
    requires LastOf(prev, a).hash == LastOf(prev, b).hash
    ensures a == b
    decreases |a|
  {
    if |a| > 0 {
      var n := |a| - 1;
      assert LinkedAt(net, prev, a, n) && LinkedAt(net, prev, b, n);
      assert net.hash(a[n].header) == net.hash(b[n].header);
      ChainedPrefix(net, prev, a, n);
      ChainedPrefix(net, prev, b, n);
      SameEndSameChain(net, prev, a[..n], b[..n]);
      assert a == a[..n] + [a[n]] && b == b[..n] + [b[n]];
    }
  }

  /** The verdict on a whole download. */
  function Verify(net: Network, lastClosed: Entry, current: Header, buffer: seq<CloseData>, entries: seq<Entry>, next: nat): Verdict
  {
    var r := Scan(net, lastClosed, entries);
    if r.None? then HashBad
    else
      var last := LastOf(lastClosed, r.value);
      if Seq32(last.header.ledgerSeq + 1) != next then HashBad
      else Judge(Trusted(lastClosed, current, buffer, last.header.ledgerSeq), last)
  }

  /** A verified download is an unbroken, correctly hashed chain from the last closed ledger to
      the one before `next`, ending in the hash the ledger manager trusts. */
  lemma VerifiedChain(net: Network, lastClosed: Entry, current: Header, buffer: seq<CloseData>, entries: seq<Entry>, next: nat)
    requires lastClosed.header.ledgerSeq < SEQ_LIMIT
    requires Verify(net, lastClosed, current, buffer, entries, next) == HashOK
    ensures Scan(net, lastClosed, entries).Some?
    ensures var chain := Scan(net, lastClosed, entries).value;
            && Chained(net, lastClosed, chain)
            && next == Seq32(lastClosed.header.ledgerSeq + |chain| + 1)
            && LastOf(lastClosed, chain).header.ledgerSeq == Seq32(lastClosed.header.ledgerSeq + |chain|)
            && Trusted(lastClosed, current, buffer, LastOf(lastClosed, chain).header.ledgerSeq) == Some(LastOf(lastClosed, chain).hash)
  {
    hide Chained, Trusted;
    var chain := Scan(net, lastClosed, entries).value;
    ScanIsChained(net, lastClosed, entries);
    LastSeq(net, lastClosed, chain);
    Seq32Successor(lastClosed.header.ledgerSeq + |chain|);
  }

  /** The verdict: good exactly when everything scanned is accepted, ends right before `next` and in
      the trusted hash; undecided exactly when only the hash is not known. */
  lemma VerifyIff(net: Network, lastClosed: Entry, current: Header, buffer: seq<CloseData>, entries: seq<Entry>, next: nat)
    requires lastClosed.header.ledgerSeq < SEQ_LIMIT
    ensures var v, scan := Verify(net, lastClosed, current, buffer, entries, next), Scan(net, lastClosed, entries);
            var reaches := scan.Some? && next == Seq32(lastClosed.header.ledgerSeq + |scan.value| + 1);
            var known := if scan.Some? then Trusted(lastClosed, current, buffer, LastOf(lastClosed, scan.value).header.ledgerSeq) else None;
            && (v == HashOK <==> reaches && known == Some(LastOf(lastClosed, scan.value).hash))
            && (v == HashUnknown <==> reaches && known == None)
  {
    hide Chained, Trusted;
    var scan := Scan(net, lastClosed, entries);
    if scan.Some? {
      ScanIsChained(net, lastClosed, entries);
      LastSeq(net, lastClosed, scan.value);
      Seq32Successor(lastClosed.header.ledgerSeq + |scan.value|);
    }
  }

  // ---------------------------------------------------------------- closing makes such chains

  /** What a closed ledger looks like: it is correctly hashed, links to the ledger before it, and
      carries what consensus decided and what the transactions made of the header. */
  lemma ClosedIs(net: Network, e: Entry, d: CloseData)
    requires e.header.ledgerSeq < SEQ_LIMIT
    ensures var c := Closed(net, e, d);
            && Links(net, e, c) && GoodEntry(net, c) && Chained(net, e, [c])
            && c.header.txSetHash == d.txSetHash && c.header.baseFee == d.baseFee && c.header.closeTime == d.closeTime
            && c.header.contents == net.run(e.header.(ledgerSeq := Seq32(e.header.ledgerSeq + 1), previousLedgerHash := e.hash), d)
  {
    var c := Closed(net, e, d);
    assert [c][..0] == [];
    assert LinkedAt(net, e, [c], 0);
  }

  /** Buffered data knits to a closed ledger exactly when it says the same as the data it was closed
      with, except perhaps about number and predecessor. */
  lemma KnitsToItsOwn(net: Network, e: Entry, d: CloseData, x: CloseData)
    ensures Knits(Closed(net, e, d), x) <==>
            x.(ledgerSeq := d.ledgerSeq, previousLedgerHash := d.previousLedgerHash) == d
  {
  }

  /** The ledgers that consecutive closes make. */
  function ChainOf(net: Network, e: Entry, ds: seq<CloseData>): seq<Entry>
    decreases |ds|
  {
    if |ds| == 0 then [] else [Closed(net, e, ds[0])] + ChainOf(net, Closed(net, e, ds[0]), ds[1..])
  }

  lemma ChainedCons(net: Network, prev: Entry, first: Entry, rest: seq<Entry>)
    requires prev.header.ledgerSeq < SEQ_LIMIT && Chained(net, prev, [first]) && Chained(net, first, rest)
    ensures Chained(net, prev, [first] + rest)
  {
    var all := [first] + rest;
    assert LinkedAt(net, prev, [first], 0);
    forall i | 0 <= i < |all| ensures LinkedAt(net, prev, all, i) {
      if i == 0 {
        assert all[..0] == [first][..0];
      } else {
        assert LinkedAt(net, first, rest, i - 1);
        assert all[..i] == [first] + rest[..i - 1];
        Seq32Shift(prev.header.ledgerSeq + 1, i);
      }
    }
  }

  lemma Seq32Shift(n: nat, i: nat)
    requires i > 0
    ensures Seq32(Seq32(n) + 1 + (i - 1)) == Seq32(n + i)
  {
    DivMod(n, SEQ_LIMIT);
    assert n + i == n / SEQ_LIMIT * SEQ_LIMIT + (Seq32(n) + i);
  }

  /** Whatever a node closes is a chain that verification accepts, and it ends where the closes end. */
  lemma {:induction false} ClosedChainVerifies(net: Network, e: Entry, ds: seq<CloseData>)
    requires e.header.ledgerSeq < SEQ_LIMIT
    ensures Chained(net, e, ChainOf(net, e, ds)) && LastOf(e, ChainOf(net, e, ds)) == CloseAll(net, e, ds)
    ensures Scan(net, e, ChainOf(net, e, ds)) == Some(ChainOf(net, e, ds)) && |ChainOf(net, e, ds)| == |ds|
    decreases |ds|
  {
    hide Closed, Chained, Scan, Links;
    if |ds| == 0 {
      ChainedNone(net, e);
    } else {
      var c := Closed(net, e, ds[0]);
      ClosedIs(net, e, ds[0]);
      ClosedChainVerifies(net, c, ds[1..]);
      ChainedCons(net, e, c, ChainOf(net, c, ds[1..]));
    }
    ScanAcceptsIff(net, e, ChainOf(net, e, ds));
  }

  lemma SameSeq32(s: nat, m: nat, n: nat)
    requires m < SEQ_LIMIT && n < SEQ_LIMIT && Seq32(s + m + 1) == Seq32(s + n + 1)
    ensures m == n
  {
  }

  /** With collision-free hashing, two verified downloads towards the same ledger agree header for header. */
  lemma VerifiedDownloadsAgree(net: Network, lastClosed: Entry, current: Header, buffer: seq<CloseData>,
                               a: seq<Entry>, b: seq<Entry>, next: nat)
    requires CollisionFree(net)
    requires lastClosed.header.ledgerSeq < SEQ_LIMIT && |a| < SEQ_LIMIT && |b| < SEQ_LIMIT
    requires Verify(net, lastClosed, current, buffer, a, next) == HashOK
    requires Verify(net, lastClosed, current, buffer, b, next) == HashOK
    ensures Scan(net, lastClosed, a) == Scan(net, lastClosed, b)
  {
    hide Chained, Trusted, Seq32, Scan, CollisionFree, Verify, LastOf;
    VerifiedChain(net, lastClosed, current, buffer, a, next);
    VerifiedChain(net, lastClosed, current, buffer, b, next);
    ScanIsChained(net, lastClosed, a);
    ScanIsChained(net, lastClosed, b);
    var c, d := Scan(net, lastClosed, a).value, Scan(net, lastClosed, b).value;
    SameSeq32(lastClosed.header.ledgerSeq, |c|, |d|);
    SameEndSameChain(net, lastClosed, c, d);
  }
}
