/** The ledger manager object: closing ledgers, falling out of sync, buffering closes while
    catching up, and replaying them; and the verification of downloaded history. */
module LedgerManagerObject {
  import opened Options
  import opened LedgerChain

  datatype State = Booting | Synced | CatchingUp

  datatype Cause = Triggered | Manual | Restart

  /** A catch-up in progress, from the ledger it was started with. */
  datatype Catchup = Catchup(init: nat, cause: Cause)

  datatype Mode = Minimal | Complete

  class LedgerManager {
    const net: Network
    var lastClosed: Entry
    var current: Header
    var state: State
    var syncing: seq<CloseData>
    var catchup: Option<Catchup>
    /** Every close carried out, in order. */
    ghost var closes: seq<CloseData>

    ghost predicate Valid()
      reads this
    {
      && (net.frequency == 8 || net.frequency == 64)
      && GoodEntry(net, lastClosed) && current == NextHeader(lastClosed)
      && (!state.CatchingUp? ==> syncing == [] && catchup.None?)
      && Buffered(syncing)
      && (catchup.Some? ==> catchup.value.init < SEQ_LIMIT)
      && (catchup.Some? && catchup.value.cause.Triggered? ==> |syncing| > 0 && syncing[0].ledgerSeq == catchup.value.init)
    }

    /** As long as no sequence number has wrapped: the buffer is a run of rising numbers, and a
        catch-up that was restarted starts beyond the next ledger. */
    ghost predicate Orderly()
      reads this
    {
      && Rising(syncing)
      && (catchup.Some? && catchup.value.cause.Restart? ==> lastClosed.header.ledgerSeq + 1 < catchup.value.init)
    }

    constructor (net: Network, genesis: Entry)
      requires GoodEntry(net, genesis) && (net.frequency == 8 || net.frequency == 64)
      ensures Valid() && Orderly() && state == Booting && this.net == net && lastClosed == genesis
      ensures catchup == None && syncing == [] && closes == []
    {
      this.net := net;
      lastClosed, current, state := genesis, NextHeader(genesis), Booting;
      syncing, catchup, closes := [], None, [];
    }

    /** Closing: refused unless the data names the last closed ledger's hash. */
    method CloseLedger(d: CloseData) returns (o: Outcome)
      requires Valid()
      modifies this`lastClosed, this`current, this`closes
      ensures Valid()
      ensures o == if d.previousLedgerHash == old(lastClosed).hash then Done else TxSetMismatch
      ensures lastClosed == if o.Done? then Closed(net, old(lastClosed), d) else old(lastClosed)
      ensures closes == if o.Done? then old(closes) + [d] else old(closes)
    {
      if d.previousLedgerHash != lastClosed.hash {
        return TxSetMismatch;
      }
      current := current.(contents := net.run(current, d));
      current := current.(baseFee := d.baseFee);
      current := current.(closeTime := d.closeTime);
      current := current.(txSetHash := d.txSetHash);
      AdvanceLedgerPointers();
      closes := closes + [d];
      return Done;
    }

    method AdvanceLedgerPointers()
      modifies this`lastClosed, this`current
      ensures lastClosed == Entry(old(current), net.hash(old(current))) && current == NextHeader(lastClosed)
    {
      lastClosed := Entry(current, net.hash(current));
      current := NextHeader(lastClosed);
    }

    method StartCatchUp(init: nat, cause: Cause) returns (o: Outcome)
      requires init < SEQ_LIMIT
      modifies this`state, this`catchup
      ensures state == CatchingUp
      ensures o == if old(catchup).Some? then AlreadyInProgress else Done
      ensures catchup == if o.Done? then Some(Catchup(init, cause)) else old(catchup)
      ensures old(Valid()) && !cause.Triggered? ==> Valid()
      ensures old(Orderly()) && !cause.Restart? ==> Orderly()
    {
      state := CatchingUp;
      if catchup.Some? {
        return AlreadyInProgress;
      }
      catchup := Some(Catchup(init, cause));
      return Done;
    }

    /** Consensus on a ledger: closed when it is the next one, otherwise buffered. While catching
        up the buffer only ever grows by the ledger after its last one. */
    method ExternalizeValue(d: CloseData) returns (o: Outcome)
      requires Valid() && d.ledgerSeq < SEQ_LIMIT
      modifies this
      ensures Valid()
      ensures !old(state).CatchingUp? && d.ledgerSeq == Seq32(old(lastClosed).header.ledgerSeq + 1) ==>
                && o == (if d.previousLedgerHash == old(lastClosed).hash then Done else ConsensusInconsistency)
                && lastClosed == (if o.Done? then Closed(net, old(lastClosed), d) else old(lastClosed))
                && closes == (if o.Done? then old(closes) + [d] else old(closes))
                && state == old(state) && syncing == [] && catchup == None
      ensures !old(state).CatchingUp? && d.ledgerSeq != Seq32(old(lastClosed).header.ledgerSeq + 1) ==>
                && o == Done && state == CatchingUp && syncing == [d] && catchup == Some(Catchup(d.ledgerSeq, Triggered))
                && lastClosed == old(lastClosed) && closes == old(closes)
      ensures old(state).CatchingUp? ==>
                && o == Done && unchanged(this`state, this`catchup, this`lastClosed, this`current, this`closes)
                && syncing == if Extends(old(syncing), d) then old(syncing) + [d] else old(syncing)
      ensures old(Orderly()) && d.ledgerSeq > 0 ==> Orderly()
    {
      hide GoodEntry, Closed;
      match state
      case Booting | Synced =>
        if Seq32(lastClosed.header.ledgerSeq + 1) == d.ledgerSeq {
          if lastClosed.hash == d.previousLedgerHash {
            o := CloseLedger(d);
          } else {
            o := ConsensusInconsistency;
          }
        } else {
          assert |syncing| == 0;
          syncing := syncing + [d];
          BufferedOne(d);
          o := StartCatchUp(d.ledgerSeq, Triggered);
        }
      case CatchingUp =>
        if Extends(syncing, d) {
          ExtendedBuffer(syncing, d);
          if Rising(syncing) && d.ledgerSeq > 0 {
            RisingExtended(syncing, d);
          }
          syncing := syncing + [d];
        }
        o := Done;
    }

    method VerifyCatchupCandidate(candidate: Entry) returns (v: Verdict)
      ensures v == Judge(Trusted(lastClosed, current, syncing, candidate.header.ledgerSeq), candidate)
    {
      var next := Seq32(candidate.header.ledgerSeq + 1);
      if lastClosed.header.ledgerSeq == candidate.header.ledgerSeq {
        return if lastClosed.hash == candidate.hash then HashOK else HashBad;
      }
      if lastClosed.header.ledgerSeq == next {
        return if lastClosed.header.previousLedgerHash == candidate.hash then HashOK else HashBad;
      }
      if current.ledgerSeq == next {
        return if current.previousLedgerHash == candidate.hash then HashOK else HashBad;
      }
      for i := 0 to |syncing|
        invariant FirstAt(syncing, next) == FirstAt(syncing[i..], next)
      {
        assert syncing[i..][1..] == syncing[i + 1..];
        if syncing[i].ledgerSeq == next {
          return if syncing[i].previousLedgerHash == candidate.hash then HashOK else HashBad;
        }
      }
      return HashUnknown;
    }

    /** History hands back a ledger (or an error). What follows is the replay of the buffer, as
        `Replay` says, however catch-up was started: an overshoot exactly when the buffer begins
        beyond the next ledger, otherwise exactly the rest of the buffer is closed. With the ledger
        before the next checkpoint, a catch-up that consensus triggered never overshoots. */
    method HistoryCaughtup(error: bool, mode: Mode, candidate: Entry) returns (o: Outcome)
      requires Valid() && candidate.header.ledgerSeq < SEQ_LIMIT
      modifies this
      ensures o == InvalidHeader <==> !error && mode == Minimal && !GoodEntry(net, candidate)
      ensures o != InvalidHeader ==> Valid()
      ensures error ==> o == Done && catchup == None && unchanged(this`state, this`syncing, this`lastClosed, this`current, this`closes)
      ensures !error && mode == Minimal && !GoodEntry(net, candidate) ==>
                && o == InvalidHeader && lastClosed == candidate && catchup == None
                && unchanged(this`state, this`syncing, this`current, this`closes)
      ensures !error && mode == Complete && candidate != old(lastClosed) ==>
                && o == AssertionFailed && catchup == None
                && unchanged(this`state, this`syncing, this`lastClosed, this`current, this`closes)
      ensures !error && Acceptable(net, old(lastClosed), mode, candidate) ==>
                var r := Replay(net, candidate, old(syncing), TipOf(old(syncing)));
                && o == r.outcome && lastClosed == r.lastClosed && closes == old(closes) + r.closes
                && current == NextHeader(lastClosed)
                && (o.Done? ==> syncing == [] && state == Synced && catchup == None)
                && (o.Restarted? ==> syncing == [] && state == CatchingUp && catchup == Some(Catchup(o.init, Restart)))
                && (!o.Done? && !o.Restarted? ==> syncing == old(syncing) && state == old(state) && catchup == None)
      ensures !error && Acceptable(net, old(lastClosed), mode, candidate) && candidate.header.ledgerSeq + 1 < SEQ_LIMIT ==>
                && |old(closes)| <= |closes|
                && ReplayedFor(net, candidate, old(syncing), Replayed(o, lastClosed, closes[|old(closes)|..]))
      ensures !error && Acceptable(net, old(lastClosed), mode, candidate) && FromCheckpoint(net, old(catchup), candidate) ==>
                !o.Restarted?
      ensures Rising(old(syncing)) && candidate.header.ledgerSeq + 1 < SEQ_LIMIT && o != InvalidHeader ==> Orderly()
    {
      hide GoodEntry, Closed, Replay, NextCheckpoint, Buffered, ReplayedFor, Rising;
      ghost var was := closes;
      RisingNone();
      if candidate.header.ledgerSeq + 1 < SEQ_LIMIT {
        ReplayedAsSaid(net, candidate, syncing);
        if Rising(syncing) {
          RestartsBeyond(net, candidate, syncing);
        }
      }
      if FromCheckpoint(net, catchup, candidate) {
        CheckpointOverlapsBuffer(net, candidate, syncing, catchup.value.init);
      }
      catchup := None;
      if error {
        return Done;
      }
      if mode == Minimal {
        lastClosed := candidate;
        if net.hash(candidate.header) != candidate.hash {
          GoodMeans(net, candidate);
          return InvalidHeader;
        }
        GoodMeans(net, candidate);
        current := NextHeader(candidate);
      } else if candidate != lastClosed {
        return AssertionFailed;
      }
      ReplayOutcomes(net, candidate, syncing, TipOf(syncing));
      o := ReplayBuffer();
      SuffixOf(was, closes);
    }

    method ReplayBuffer() returns (o: Outcome)
      requires Valid() && catchup == None
      modifies this
      ensures Valid()
      ensures var r := Replay(net, old(lastClosed), old(syncing), TipOf(old(syncing)));
              o == r.outcome && lastClosed == r.lastClosed && closes == old(closes) + r.closes
      ensures current == NextHeader(lastClosed)
      ensures o.Done? ==> syncing == [] && state == Synced && catchup == None
      ensures o.Restarted? ==> syncing == [] && state == CatchingUp && catchup == Some(Catchup(o.init, Restart))
      ensures !o.Done? && !o.Restarted? ==> syncing == old(syncing) && state == old(state) && catchup == None
    {
      hide GoodEntry, Closed, Replay, Buffered, Knits, Seq32, Onto;
      ghost var start, was := lastClosed, closes;
      ghost var mine: seq<CloseData> := [];
      var buffer := syncing;
      var tip := TipOf(syncing);
      TipInRange(syncing);
      assert buffer[0..] == buffer;
      OntoNothing(Replay(net, start, buffer, tip));
      for i := 0 to |buffer|
        invariant Valid() && catchup == None && syncing == buffer && state == old(state)
        invariant closes == was + mine
        invariant Replay(net, start, buffer, tip) == Onto(mine, Replay(net, lastClosed, buffer[i..], tip))
      {
        var d := buffer[i];
        ReplayStep(net, lastClosed, buffer, i, tip, mine);
        if d.ledgerSeq < Seq32(lastClosed.header.ledgerSeq + 1) {
          if d.ledgerSeq == lastClosed.header.ledgerSeq && !Knits(lastClosed, d) {
            return AssertionFailed;
          }
        } else if d.ledgerSeq == Seq32(lastClosed.header.ledgerSeq + 1) {
          o := CloseLedger(d);
          if o != Done {
            return;
          }
          mine := mine + [d];
        } else {
          syncing := [];
          EmptyBuffer();
          o := StartCatchUp(tip, Restart);
          return Restarted(tip);
        }
      }
      ReplayUnfolds(net, lastClosed, buffer[|buffer|..], tip);
      OntoMeans(mine, lastClosed);
      syncing := [];
      EmptyBuffer();
      state := Synced;
      return Done;
    }
  }

  /** The close data after the last buffered one, or anything when nothing is buffered. */
  predicate Extends(buffer: seq<CloseData>, d: CloseData)
  {
    |buffer| == 0 || Seq32(buffer[|buffer| - 1].ledgerSeq + 1) == d.ledgerSeq
  }

  function TipOf(buffer: seq<CloseData>): nat
  {
    if |buffer| == 0 then 0 else buffer[|buffer| - 1].ledgerSeq
  }

  /** Buffered closes are contiguous from the first. */
  ghost predicate Buffered(buffer: seq<CloseData>)
  {
    |buffer| > 0 ==> Contiguous(buffer, buffer[0].ledgerSeq)
  }

  lemma EmptyBuffer()
    ensures Buffered([])
  {
  }

  lemma BufferedOne(d: CloseData)
    requires d.ledgerSeq < SEQ_LIMIT
    ensures Buffered([d])
  {
  }

  /** What is buffered is exactly what leaves the buffer without a gap. */
  lemma ExtendedBuffer(buffer: seq<CloseData>, d: CloseData)
    requires Buffered(buffer) && d.ledgerSeq < SEQ_LIMIT
    ensures Extends(buffer, d) <==> Buffered(buffer + [d])
  {
    var all := buffer + [d];
    if |buffer| > 0 {
      var first, n := buffer[0].ledgerSeq, |buffer|;
      assert buffer[n - 1].ledgerSeq == Seq32(first + (n - 1));
      Seq32Successor(first + (n - 1));
      assert all[n] == d;
      if Extends(buffer, d) {
        forall i | 0 <= i < |all| ensures all[i].ledgerSeq == Seq32(first + i) {
          if i < n {
            assert all[i] == buffer[i];
          }
        }
      }
      if Buffered(all) {
        assert all[n].ledgerSeq == Seq32(first + n);
      }
    }
  }

  /** The manager takes the ledger over: in minimal mode when its hash is right, in complete mode
      when it is the one already closed. */
  ghost predicate Acceptable(net: Network, lastClosed: Entry, mode: Mode, candidate: Entry)
  {
    match mode
    case Minimal => GoodEntry(net, candidate)
    case Complete => candidate == lastClosed
  }

  /** A catch-up that consensus triggered and that was handed the ledger before the checkpoint it
      rounded up to. */
  ghost predicate FromCheckpoint(net: Network, catchup: Option<Catchup>, candidate: Entry)
    requires net.frequency > 0
  {
    && catchup.Some? && catchup.value.cause.Triggered?
    && candidate.header.ledgerSeq + 1 == NextCheckpoint(net, catchup.value.init, false)
  }

  /** Of the buffer, contiguous from `first`, the ledgers after the one history handed back were
      closed, each once and in order, up to the tip; the overshoot branch was not taken. It ended
      well exactly when the data at the knit-up point agreed and every close connected. */
  ghost predicate ReplayedExactly(net: Network, candidate: Entry, buffer: seq<CloseData>, first: nat, r: Replayed)
  {
    var k := candidate.header.ledgerSeq + 1 - first;
    && 0 <= k && !r.outcome.Restarted?
    && (r.outcome.Done? <==>
          && (0 < k <= |buffer| ==> Knits(candidate, buffer[k - 1]))
          && (k <= |buffer| ==> Connected(net, candidate, buffer[k..])))
    && (r.outcome.Done? && k < |buffer| ==>
          r.closes == buffer[k..] && r.lastClosed.header.ledgerSeq == buffer[|buffer| - 1].ledgerSeq)
    && (r.outcome.Done? && k >= |buffer| ==> r.closes == [] && r.lastClosed == candidate)
  }

  /** What replay does with the buffer of any catch-up: nothing to do, an overshoot when the buffer
      begins beyond the next ledger, and otherwise the rest of the buffer exactly. */
  ghost predicate ReplayedFor(net: Network, candidate: Entry, buffer: seq<CloseData>, r: Replayed)
  {
    if |buffer| == 0 then r == Replayed(Done, candidate, [])
    else if buffer[0].ledgerSeq > candidate.header.ledgerSeq + 1 then
      r == Replayed(Restarted(TipOf(buffer)), candidate, [])
    else ReplayedExactly(net, candidate, buffer, buffer[0].ledgerSeq, r)
  }

  lemma ReplayedAsSaid(net: Network, candidate: Entry, buffer: seq<CloseData>)
    requires candidate.header.ledgerSeq + 1 < SEQ_LIMIT && Buffered(buffer)
    ensures ReplayedFor(net, candidate, buffer, Replay(net, candidate, buffer, TipOf(buffer)))
  {
    hide Knits, CloseAll, Connected;
    ReplayUnfolds(net, candidate, buffer, TipOf(buffer));
    hide Replay;
    if |buffer| > 0 && buffer[0].ledgerSeq <= candidate.header.ledgerSeq + 1 {
      var first := buffer[0].ledgerSeq;
      ReplayExact(net, candidate, buffer, TipOf(buffer), first);
      if candidate.header.ledgerSeq + 1 - first == |buffer| {
        assert buffer[|buffer|..] == [];
        NothingLeft(net, candidate);
      }
    }
  }

  lemma CheckpointOverlapsBuffer(net: Network, candidate: Entry, buffer: seq<CloseData>, init: nat)
    requires (net.frequency == 8 || net.frequency == 64) && init < SEQ_LIMIT
    requires Buffered(buffer) && |buffer| > 0 && buffer[0].ledgerSeq == init
    requires candidate.header.ledgerSeq + 1 == NextCheckpoint(net, init, false)
    ensures !Replay(net, candidate, buffer, TipOf(buffer)).outcome.Restarted?
  {
    hide Replay, NextCheckpoint, Contiguous;
    CheckpointOverlaps(net, candidate, buffer, init, TipOf(buffer));
  }

  /** The numbers in the buffer rise without wrapping. */
  ghost predicate Rising(buffer: seq<CloseData>)
  {
    |buffer| > 0 ==> Contiguous(buffer, buffer[0].ledgerSeq) && buffer[0].ledgerSeq + |buffer| <= SEQ_LIMIT
  }

  lemma RisingNone()
    ensures Rising([])
  {
  }

  lemma RisingTip(buffer: seq<CloseData>)
    requires Rising(buffer) && |buffer| > 0
    ensures TipOf(buffer) == buffer[0].ledgerSeq + |buffer| - 1
  {
    assert buffer[|buffer| - 1].ledgerSeq == Seq32(buffer[0].ledgerSeq + (|buffer| - 1));
  }

  lemma RisingExtended(buffer: seq<CloseData>, d: CloseData)
    requires Rising(buffer) && Buffered(buffer + [d]) && Extends(buffer, d) && 0 < d.ledgerSeq < SEQ_LIMIT
    ensures Rising(buffer + [d])
  {
    if |buffer| > 0 {
      RisingTip(buffer);
    }
  }

  /** An overshoot restarts catch-up beyond the next ledger. */
  lemma RestartsBeyond(net: Network, candidate: Entry, buffer: seq<CloseData>)
    requires candidate.header.ledgerSeq + 1 < SEQ_LIMIT && Rising(buffer)
    ensures var r := Replay(net, candidate, buffer, TipOf(buffer));
            r.outcome.Restarted? ==> r.lastClosed == candidate && candidate.header.ledgerSeq + 1 < r.outcome.init
  {
    ReplayUnfolds(net, candidate, buffer, TipOf(buffer));
    hide Replay;
    if |buffer| > 0 {
      OvershootIff(net, candidate, buffer, TipOf(buffer), buffer[0].ledgerSeq);
      RisingTip(buffer);
    }
  }

  lemma TipInRange(buffer: seq<CloseData>)
    requires Buffered(buffer)
    ensures TipOf(buffer) < SEQ_LIMIT
  {
    if |buffer| > 0 {
      assert buffer[|buffer| - 1].ledgerSeq == Seq32(buffer[0].ledgerSeq + (|buffer| - 1));
    }
  }

  lemma SuffixOf(was: seq<CloseData>, now: seq<CloseData>)
    ensures forall more :: now == was + more ==> |was| <= |now| && now[|was|..] == more
  {
  }

  lemma GoodMeans(net: Network, e: Entry)
    ensures GoodEntry(net, e) <==> net.hash(e.header) == e.hash && e.header.ledgerSeq < SEQ_LIMIT
  {
  }

  function Onto(mine: seq<CloseData>, r: Replayed): Replayed
  {
    r.(closes := mine + r.closes)
  }

  lemma OntoNothing(r: Replayed)
    ensures Onto([], r) == r
  {
  }

  lemma OntoMeans(mine: seq<CloseData>, e: Entry)
    ensures forall o :: Onto(mine, Replayed(o, e, [])) == Replayed(o, e, mine)
  {
  }

  lemma OntoMore(mine: seq<CloseData>, d: CloseData, r: Replayed)
    ensures Onto(mine, Onto([d], r)) == Onto(mine + [d], r)
  {
  }

  /** One turn of the replay loop. */
  lemma ReplayStep(net: Network, e: Entry, buffer: seq<CloseData>, i: nat, tip: nat, mine: seq<CloseData>)
    requires i < |buffer|
    ensures var d, expected, r := buffer[i], Seq32(e.header.ledgerSeq + 1), Onto(mine, Replay(net, e, buffer[i..], tip));
            if d.ledgerSeq < expected then
              if d.ledgerSeq == e.header.ledgerSeq && !Knits(e, d) then r == Replayed(AssertionFailed, e, mine)
              else r == Onto(mine, Replay(net, e, buffer[i + 1..], tip))
            else if d.ledgerSeq == expected then
              if d.previousLedgerHash != e.hash then r == Replayed(TxSetMismatch, e, mine)
              else r == Onto(mine + [d], Replay(net, Closed(net, e, d), buffer[i + 1..], tip))
            else r == Replayed(Restarted(tip), e, mine)
  {
    hide Replay, Onto, Closed, Knits, Seq32;
    ReplayUnfolds(net, e, buffer[i..], tip);
    assert buffer[i..][1..] == buffer[i + 1..] && buffer[i..][0] == buffer[i];
    OntoMeans(mine, e);
    OntoMore(mine, buffer[i], Replay(net, Closed(net, e, buffer[i]), buffer[i + 1..], tip));
  }

  lemma ReplayUnfolds(net: Network, e: Entry, buffer: seq<CloseData>, tip: nat)
    ensures |buffer| == 0 ==> Replay(net, e, buffer, tip) == Replayed(Done, e, [])
    ensures |buffer| > 0 ==>
              var d, expected := buffer[0], Seq32(e.header.ledgerSeq + 1);
              Replay(net, e, buffer, tip) ==
              if d.ledgerSeq < expected then
                if d.ledgerSeq == e.header.ledgerSeq && !Knits(e, d) then Replayed(AssertionFailed, e, [])
                else Replay(net, e, buffer[1..], tip)
              else if d.ledgerSeq == expected then
                if d.previousLedgerHash != e.hash then Replayed(TxSetMismatch, e, [])
                else Onto([d], Replay(net, Closed(net, e, d), buffer[1..], tip))
              else Replayed(Restarted(tip), e, [])
  {
  }

  // ---------------------------------------------------------------- waiting

  /** The buffer after hearing of closes while catching up: only what extends it is kept. */
  function Heard(buffer: seq<CloseData>, ds: seq<CloseData>): seq<CloseData>
  {
    if |ds| == 0 then buffer
    else
      var before, d := Heard(buffer, ds[..|ds| - 1]), ds[|ds| - 1];
      if Extends(before, d) then before + [d] else before
  }

  /** While catching up no consensus, however long it goes on, closes a ledger or starts a
      catch-up. Only a catch-up that finishes leads out of this state. */
  method ExternalizeAll(lm: LedgerManager, ds: seq<CloseData>)
    requires lm.Valid() && lm.state == CatchingUp && forall d :: d in ds ==> d.ledgerSeq < SEQ_LIMIT
    modifies lm
    ensures lm.Valid() && lm.state == CatchingUp && lm.catchup == old(lm.catchup)
    ensures lm.lastClosed == old(lm.lastClosed) && lm.current == old(lm.current) && lm.closes == old(lm.closes)
    ensures lm.syncing == Heard(old(lm.syncing), ds)
    ensures old(lm.Orderly()) && (forall d :: d in ds ==> d.ledgerSeq > 0) ==> lm.Orderly()
  {
    for i := 0 to |ds|
      invariant lm.Valid() && lm.state == CatchingUp && lm.catchup == old(lm.catchup)
      invariant lm.lastClosed == old(lm.lastClosed) && lm.current == old(lm.current) && lm.closes == old(lm.closes)
      invariant lm.syncing == Heard(old(lm.syncing), ds[..i])
      invariant old(lm.Orderly()) && (forall d :: d in ds ==> d.ledgerSeq > 0) ==> lm.Orderly()
    {
      assert ds[..i + 1][..i] == ds[..i];
      var _ := lm.ExternalizeValue(ds[i]);
    }
    assert ds[..|ds|] == ds;
  }

  // ---------------------------------------------------------------- verifying downloaded history

  function Flatten(files: seq<seq<Entry>>): seq<Entry>
  {
    if |files| == 0 then [] else Flatten(files[..|files| - 1]) + files[|files| - 1]
  }

  /** Scans all files, oldest first, from the last closed ledger on, and asks the ledger manager
      about the last header; `chain` are the headers accepted. */
  method VerifyHistoryFromLastClosedLedger(lm: LedgerManager, files: seq<seq<Entry>>, next: nat)
    returns (v: Verdict, ghost chain: seq<Entry>)
    ensures v == Verify(lm.net, lm.lastClosed, lm.current, lm.syncing, Flatten(files), next)
    ensures v.HashOK? && lm.lastClosed.header.ledgerSeq < SEQ_LIMIT ==>
              && Scan(lm.net, lm.lastClosed, Flatten(files)) == Some(chain) && Chained(lm.net, lm.lastClosed, chain)
              && next == Seq32(lm.lastClosed.header.ledgerSeq + |chain| + 1)
  {
    hide Scan, Links, Chained, Trusted;
    var net, lcl := lm.net, lm.lastClosed;
    var prev := lcl;
    chain := [];
    ScanNone(net, lcl);
    for f := 0 to |files|
      invariant Scan(net, lcl, Flatten(files[..f])) == Some(chain) && prev == LastOf(lcl, chain)
    {
      var file := files[f];
      ghost var before := Flatten(files[..f]);
      assert before + file[..0] == before;
      for i := 0 to |file|
        invariant Scan(net, lcl, before + file[..i]) == Some(chain) && prev == LastOf(lcl, chain)
      {
        var curr := file[i];
        assert before + file[..i + 1] == before + file[..i] + [curr];
        ScanSnoc(net, lcl, before + file[..i], curr);
        var expected := Seq32(prev.header.ledgerSeq + 1);
        if curr.header.ledgerSeq < expected {
          continue;
        } else if curr.header.ledgerSeq > expected {
          ScanFails(net, lcl, files, f, i);
          return HashBad, chain;
        }
        var linked := VerifyLedgerHistoryLink(net, prev.hash, curr);
        if linked != HashOK {
          LinksMeans(net, prev, curr);
          ScanFails(net, lcl, files, f, i);
          return HashBad, chain;
        }
        LinksMeans(net, prev, curr);
        chain := chain + [curr];
        prev := curr;
      }
      assert file[..|file|] == file && files[..f + 1][..f] == files[..f];
    }
    assert files[..|files|] == files;
    if Seq32(prev.header.ledgerSeq + 1) != next {
      return HashBad, chain;
    }
    v := lm.VerifyCatchupCandidate(prev);
    if v.HashOK? && lcl.header.ledgerSeq < SEQ_LIMIT {
      VerifiedChain(net, lcl, lm.current, lm.syncing, Flatten(files), next);
    }
  }

  /** The entry hashes to what it claims. */
  method VerifyLedgerHistoryEntry(net: Network, e: Entry) returns (v: Verdict)
    ensures v == HashOK <==> net.hash(e.header) == e.hash
    ensures v == HashOK || v == HashBad
  {
    v := if net.hash(e.header) != e.hash then HashBad else HashOK;
  }

  /** The entry is right and names the hash of its predecessor. */
  method VerifyLedgerHistoryLink(net: Network, prev: nat, curr: Entry) returns (v: Verdict)
    ensures v == HashOK <==> net.hash(curr.header) == curr.hash && prev == curr.header.previousLedgerHash
    ensures v == HashOK || v == HashBad
  {
    v := VerifyLedgerHistoryEntry(net, curr);
    if v == HashOK && prev != curr.header.previousLedgerHash {
      v := HashBad;
    }
  }

  lemma LinksMeans(net: Network, prev: Entry, curr: Entry)
    ensures Links(net, prev, curr) <==> net.hash(curr.header) == curr.hash && prev.hash == curr.header.previousLedgerHash
  {
  }

  lemma ScanNone(net: Network, prev: Entry)
    ensures Scan(net, prev, []) == Some([])
  {
  }

  lemma {:induction false} FlattenSplit(files: seq<seq<Entry>>, f: nat) returns (rest: seq<Entry>)
    requires f < |files|
    ensures Flatten(files) == Flatten(files[..f]) + files[f] + rest
    decreases |files|
  {
    var n := |files| - 1;
    if f == n {
      rest := [];
    } else {
      var r := FlattenSplit(files[..n], f);
      assert files[..n][..f] == files[..f];
      rest := r + files[n];
    }
  }

  /** A bad entry in any file spoils the whole scan. */
  lemma ScanFails(net: Network, prev: Entry, files: seq<seq<Entry>>, f: nat, i: nat)
    requires f < |files| && i < |files[f]| && Scan(net, prev, Flatten(files[..f]) + files[f][..i + 1]).None?
    ensures Scan(net, prev, Flatten(files)).None?
  {
    var rest := FlattenSplit(files, f);
    var head, tail := files[f][..i + 1], files[f][i + 1..];
    assert files[f] == head + tail;
    assert Flatten(files) == Flatten(files[..f]) + head + (tail + rest);
    ScanStaysBad(net, prev, Flatten(files[..f]) + head, tail + rest);
  }
}
