/** The end of a catch-up: the downloaded material is verified, and only what the ledger manager
    approves is applied and handed back to it. */
module CatchupObject {
  import opened Options
  import opened LedgerChain
  import opened LedgerManagerObject

  // ---------------------------------------------------------------- applying verified history

  /** A transaction set as history holds it: the ledger it builds on and the hash of its contents. */
  datatype TxSet = TxSet(previousLedgerHash: nat, contentsHash: nat)

  /** The transaction sets of a download; a ledger without one has the empty set. */
  datatype TxSets = TxSets(of: Entry -> Option<TxSet>, emptyHash: nat -> nat)

  function SetFor(sets: TxSets, lastClosed: Entry, e: Entry): TxSet
  {
    match sets.of(e)
    case Some(ts) => ts
    case None => TxSet(lastClosed.hash, sets.emptyHash(lastClosed.hash))
  }

  function DataFor(e: Entry, ts: TxSet): CloseData
  {
    CloseData(e.header.ledgerSeq, ts.previousLedgerHash, ts.contentsHash, e.header.baseFee, e.header.closeTime)
  }

  /** What becomes of one header: it is old and passed over, it is closed, or an exception is thrown. */
  datatype Passage = Passed | Applied | Refused

  /** The passage of a header, and the last closed ledger after it. */
  function Pass(net: Network, lastClosed: Entry, e: Entry, ts: TxSet): (Passage, Entry)
  {
    var lcl, after := lastClosed.header, Seq32(e.header.ledgerSeq + 1);
    if after < lcl.ledgerSeq then (Passed, lastClosed)
    else if after == lcl.ledgerSeq then (if e.hash == lcl.previousLedgerHash then Passed else Refused, lastClosed)
    else if e.header.ledgerSeq == lcl.ledgerSeq then (if e.hash == lastClosed.hash then Passed else Refused, lastClosed)
    else if || e.header.ledgerSeq != Seq32(lcl.ledgerSeq + 1) || e.header.previousLedgerHash != lastClosed.hash
            || e.header.txSetHash != ts.contentsHash || ts.previousLedgerHash != lastClosed.hash
         then (Refused, lastClosed)
    else
      var closed := Closed(net, lastClosed, DataFor(e, ts));
      (if closed.hash == e.hash then Applied else Refused, closed)
  }

  method ApplyHeader(lm: LedgerManager, e: Entry, ts: TxSet) returns (p: Passage)
    requires lm.Valid()
    modifies lm`lastClosed, lm`current, lm`closes
    ensures lm.Valid() && (p, lm.lastClosed) == Pass(lm.net, old(lm.lastClosed), e, ts)
    ensures p.Applied? ==> lm.closes == old(lm.closes) + [DataFor(e, ts)]
    ensures p.Passed? ==> lm.closes == old(lm.closes)
  {
    hide Closed, GoodEntry, Buffered;
    var lcl, after := lm.lastClosed.header, Seq32(e.header.ledgerSeq + 1);
    if after < lcl.ledgerSeq {
      return Passed;
    }
    if after == lcl.ledgerSeq {
      return if e.hash == lcl.previousLedgerHash then Passed else Refused;
    }
    if e.header.ledgerSeq == lcl.ledgerSeq {
      return if e.hash == lm.lastClosed.hash then Passed else Refused;
    }
    if e.header.ledgerSeq != lm.current.ledgerSeq || e.header.previousLedgerHash != lm.lastClosed.hash {
      return Refused;
    }
    if e.header.txSetHash != ts.contentsHash {
      return Refused;
    }
    var o := lm.CloseLedger(DataFor(e, ts));
    if o != Done || lm.lastClosed.hash != e.hash {
      return Refused;
    }
    return Applied;
  }

  /** With collision-free hashing, a correctly hashed header is applied exactly when it is the very
      ledger that closing with this transaction set makes, and the set builds on the last closed
      ledger; it is passed over exactly when it lies more than one ledger back or is the last closed
      ledger or the one before. Everything else is refused. */
  lemma PassageIff(net: Network, lcl: Entry, e: Entry, ts: TxSet)
    requires CollisionFree(net) && GoodEntry(net, e) && e.header.ledgerSeq + 1 < SEQ_LIMIT && lcl.header.ledgerSeq + 1 < SEQ_LIMIT
    ensures var p := Pass(net, lcl, e, ts);
            && (p.0.Applied? <==>
                  && ts.previousLedgerHash == lcl.hash && ts.contentsHash == e.header.txSetHash
                  && e == Closed(net, lcl, CloseData(e.header.ledgerSeq, lcl.hash, e.header.txSetHash, e.header.baseFee, e.header.closeTime)))
            && (p.0.Applied? ==> p.1 == e)
            && (p.0.Passed? <==>
                  || e.header.ledgerSeq + 1 < lcl.header.ledgerSeq
                  || (e.header.ledgerSeq + 1 == lcl.header.ledgerSeq && e.hash == lcl.header.previousLedgerHash)
                  || (e.header.ledgerSeq == lcl.header.ledgerSeq && e.hash == lcl.hash))
  {
    var d := DataFor(e, ts);
    ClosedIs(net, lcl, d);
    var c := Closed(net, lcl, d);
    assert Links(net, lcl, c) && c.header.ledgerSeq == lcl.header.ledgerSeq + 1 by {
      SeqOfClosed(net, lcl, d);
    }
    hide Closed;
    assert c.hash == e.hash ==> c.header == e.header;
  }

  // ---------------------------------------------------------------- history that another node closed

  /** Every header is applied in turn, and closes to exactly the ledger it claims. */
  ghost predicate Reproducible(net: Network, lcl: Entry, entries: seq<Entry>, sets: TxSets)
    decreases |entries|
  {
    |entries| == 0 ||
    (Pass(net, lcl, entries[0], SetFor(sets, lcl, entries[0])) == (Applied, entries[0]) && Reproducible(net, entries[0], entries[1..], sets))
  }

  /** The download holds the transaction set of every ledger that was closed. */
  ghost predicate HoldsSets(sets: TxSets, chain: seq<Entry>, ds: seq<CloseData>)
  {
    |chain| == |ds| && forall i :: 0 <= i < |ds| ==> sets.of(chain[i]) == Some(TxSet(ds[i].previousLedgerHash, ds[i].txSetHash))
  }

  lemma ClosedIsApplied(net: Network, lcl: Entry, d: CloseData)
    requires d.ledgerSeq == lcl.header.ledgerSeq + 1 && d.ledgerSeq + 1 < SEQ_LIMIT && d.previousLedgerHash == lcl.hash
    ensures Pass(net, lcl, Closed(net, lcl, d), TxSet(d.previousLedgerHash, d.txSetHash)) == (Applied, Closed(net, lcl, d))
  {
    var c := Closed(net, lcl, d);
    ClosedIs(net, lcl, d);
    SeqOfClosed(net, lcl, d);
    assert DataFor(c, TxSet(d.previousLedgerHash, d.txSetHash)) == d;
    hide Closed;
  }

  /** What one node closed, another one that stands where it began can apply. */
  lemma {:induction false} OwnHistoryReproduces(net: Network, lcl: Entry, ds: seq<CloseData>, sets: TxSets)
    requires Contiguous(ds, lcl.header.ledgerSeq + 1) && lcl.header.ledgerSeq + |ds| + 1 < SEQ_LIMIT && Connected(net, lcl, ds)
    requires HoldsSets(sets, ChainOf(net, lcl, ds), ds)
    ensures Reproducible(net, lcl, ChainOf(net, lcl, ds), sets)
    decreases |ds|
  {
    hide Pass, Closed;
    if |ds| > 0 {
      var c, chain := Closed(net, lcl, ds[0]), ChainOf(net, lcl, ds);
      var rest := ChainOf(net, c, ds[1..]);
      assert ds[0].ledgerSeq == Seq32(lcl.header.ledgerSeq + 1 + 0);
      ClosedIsApplied(net, lcl, ds[0]);
      SeqOfClosed(net, lcl, ds[0]);
      ContiguousTail(ds, lcl.header.ledgerSeq + 1);
      assert chain[0] == c && chain[1..] == rest;
      forall i | 0 <= i < |ds[1..]| ensures sets.of(rest[i]) == Some(TxSet(ds[1..][i].previousLedgerHash, ds[1..][i].txSetHash)) {
        assert rest[i] == chain[i + 1] && ds[1..][i] == ds[i + 1];
      }
      OwnHistoryReproduces(net, c, ds[1..], sets);
    }
  }

  lemma ReproducibleStep(net: Network, prev: Entry, entries: seq<Entry>, sets: TxSets, i: nat, lcl: Entry)
    requires i < |entries| && lcl == LastOf(prev, entries[..i]) && Reproducible(net, lcl, entries[i..], sets)
    ensures Pass(net, lcl, entries[i], SetFor(sets, lcl, entries[i])) == (Applied, entries[i])
    ensures entries[i] == LastOf(prev, entries[..i + 1]) && Reproducible(net, entries[i], entries[i + 1..], sets)
  {
    hide Pass;
    assert entries[i..][0] == entries[i] && entries[i..][1..] == entries[i + 1..];
  }

  // ---------------------------------------------------------------- the loop over a download

  /** The manager stands where the accepted chain stands. */
  ghost predicate StandsAt(lcl: Entry, prev: Entry, chain: seq<Entry>)
  {
    var last := LastOf(prev, chain);
    && lcl.hash == last.hash && lcl.header.ledgerSeq == last.header.ledgerSeq
    && last.header.ledgerSeq == prev.header.ledgerSeq + |chain|
  }

  /** Where no number wraps, a header that verification accepts is the one that is applied, and a
      header it passes over is passed over. */
  lemma SamePassage(net: Network, prev: Entry, chain: seq<Entry>, lcl: Entry, e: Entry, ts: TxSet, more: seq<Entry>)
    requires StandsAt(lcl, prev, chain) && prev.header.ledgerSeq + |chain| + 2 < SEQ_LIMIT && e.header.ledgerSeq < SEQ_LIMIT
    requires ScanOne(net, prev, Some(chain), e) == Some(more)
    ensures Pass(net, lcl, e, ts).0.Passed? ==> more == chain && Pass(net, lcl, e, ts).1 == lcl
    ensures Pass(net, lcl, e, ts).0.Applied? ==> more == chain + [e] && StandsAt(Pass(net, lcl, e, ts).1, prev, more)
  {
    hide Links;
  }

  const BLANK := Entry(Header(0, 0, 0, 0, 0, 0), 0)

  /** The entry handed back: the last one applied, or a blank one when none was. */
  function Handed(chain: seq<Entry>): Entry
  {
    LastOf(BLANK, chain)
  }

  /** The closes of a history are those of the chain, one for each header and in order. */
  ghost predicate ClosesOf(chain: seq<Entry>, history: seq<CloseData>)
  {
    && |history| == |chain|
    && forall j :: 0 <= j < |chain| ==>
         && history[j].ledgerSeq == chain[j].header.ledgerSeq && history[j].txSetHash == chain[j].header.txSetHash
         && history[j].baseFee == chain[j].header.baseFee && history[j].closeTime == chain[j].header.closeTime
  }

  lemma ClosesOneMore(chain: seq<Entry>, history: seq<CloseData>, e: Entry, ts: TxSet)
    requires ClosesOf(chain, history) && e.header.txSetHash == ts.contentsHash
    ensures ClosesOf(chain + [e], history + [DataFor(e, ts)])
  {
  }

  lemma PrefixScans(net: Network, prev: Entry, entries: seq<Entry>, i: nat)
    requires i <= |entries| && Scan(net, prev, entries).Some?
    ensures Scan(net, prev, entries[..i]).Some?
  {
    assert entries == entries[..i] + entries[i..];
    if Scan(net, prev, entries[..i]).None? {
      ScanStaysBad(net, prev, entries[..i], entries[i..]);
    }
  }

  /** One header of a history that verification accepts. */
  lemma HistoryStep(net: Network, prev: Entry, entries: seq<Entry>, i: nat, lcl: Entry, ts: TxSet)
    requires i < |entries| && Scan(net, prev, entries).Some? && prev.header.ledgerSeq + |entries| + 1 < SEQ_LIMIT
    requires entries[i].header.ledgerSeq < SEQ_LIMIT && Scan(net, prev, entries[..i]).Some?
    requires StandsAt(lcl, prev, Scan(net, prev, entries[..i]).value)
    ensures Scan(net, prev, entries[..i + 1]).Some?
    ensures var chain, more := Scan(net, prev, entries[..i]).value, Scan(net, prev, entries[..i + 1]).value;
            && (Pass(net, lcl, entries[i], ts).0.Passed? ==> more == chain && Pass(net, lcl, entries[i], ts).1 == lcl)
            && (Pass(net, lcl, entries[i], ts).0.Applied? ==>
                  more == chain + [entries[i]] && StandsAt(Pass(net, lcl, entries[i], ts).1, prev, more))
  {
    hide Scan, Pass, ScanOne, StandsAt;
    PrefixScans(net, prev, entries, i + 1);
    assert entries[..i + 1] == entries[..i] + [entries[i]];
    ScanSnoc(net, prev, entries[..i], entries[i]);
    ScanLength(net, prev, entries[..i]);
    SamePassage(net, prev, Scan(net, prev, entries[..i]).value, lcl, entries[i], ts, Scan(net, prev, entries[..i + 1]).value);
  }

  lemma {:induction false} ScanLength(net: Network, prev: Entry, entries: seq<Entry>)
    ensures Scan(net, prev, entries).Some? ==> |Scan(net, prev, entries).value| <= |entries|
  {
    hide Links, Seq32;
    if |entries| > 0 {
      ScanLength(net, prev, entries[..|entries| - 1]);
    }
  }

  /** Replays the headers of a download. For a download that verification accepts, and as long as
      no number wraps, exactly the accepted ledgers are closed, one by one, and the manager ends at
      the last of them. */
  method ApplyHistory(lm: LedgerManager, entries: seq<Entry>, sets: TxSets) returns (ok: bool, handed: Entry, ghost history: seq<CloseData>)
    requires lm.Valid() && forall e :: e in entries ==> e.header.ledgerSeq < SEQ_LIMIT
    modifies lm`lastClosed, lm`current, lm`closes
    ensures lm.Valid()
    ensures handed.header.ledgerSeq < SEQ_LIMIT
    ensures ok ==> lm.closes == old(lm.closes) + history
    ensures ok && Unwrapped(old(lm.lastClosed), entries) ==>
              var scan := Scan(lm.net, old(lm.lastClosed), entries);
              scan.Some? ==>
                && StandsAt(lm.lastClosed, old(lm.lastClosed), scan.value)
                && handed == Handed(scan.value) && ClosesOf(scan.value, history)
                && (|scan.value| == 0 ==> lm.lastClosed == old(lm.lastClosed))
    ensures Reproducible(lm.net, old(lm.lastClosed), entries, sets) ==>
              ok && lm.lastClosed == LastOf(old(lm.lastClosed), entries) && handed == Handed(entries) && |history| == |entries|
  {
    hide Reproducible;
    hide Scan, Pass, StandsAt, ClosesOf, GoodEntry, Buffered, Closed;
    handed, history := BLANK, [];
    ghost var net, prev, was := lm.net, lm.lastClosed, lm.closes;
    ghost var tracked := Unwrapped(prev, entries) && Scan(net, prev, entries).Some?;
    HistoryStarts(net, prev, entries);
    ghost var good := Reproducible(net, prev, entries, sets);
    assert entries[0..] == entries;
    for i := 0 to |entries|
      invariant lm.Valid() && lm.closes == was + history && handed.header.ledgerSeq < SEQ_LIMIT
      invariant tracked ==> Tracked(net, prev, entries[..i], lm.lastClosed, handed, history)
      invariant good ==> lm.lastClosed == LastOf(prev, entries[..i]) && Reproducible(net, lm.lastClosed, entries[i..], sets)
      invariant good ==> handed == Handed(entries[..i]) && |history| == i
    {
      var e := entries[i];
      var ts := SetFor(sets, lm.lastClosed, e);
      ghost var lcl := lm.lastClosed;
      if tracked {
        HistoryStep(net, prev, entries, i, lcl, ts);
        TrackedStep(net, prev, entries, i, lcl, ts, handed, history);
      }
      if good {
        ReproducibleStep(net, prev, entries, sets, i, lcl);
      }
      var p := ApplyHeader(lm, e, ts);
      if p.Refused? {
        ok := false;
        return;
      }
      if p.Applied? {
        handed, history := e, history + [DataFor(e, ts)];
      }
    }
    assert entries[..|entries|] == entries;
    ok := true;
  }

  ghost predicate Unwrapped(prev: Entry, entries: seq<Entry>)
  {
    prev.header.ledgerSeq + |entries| + 1 < SEQ_LIMIT
  }

  /** The state of the replay after some headers. */
  ghost predicate Tracked(net: Network, prev: Entry, done: seq<Entry>, lcl: Entry, handed: Entry, history: seq<CloseData>)
  {
    var scan := Scan(net, prev, done);
    && scan.Some? && StandsAt(lcl, prev, scan.value) && handed == Handed(scan.value) && ClosesOf(scan.value, history)
    && (|scan.value| == 0 ==> lcl == prev)
  }

  lemma HistoryStarts(net: Network, prev: Entry, entries: seq<Entry>)
    ensures Tracked(net, prev, entries[..0], prev, BLANK, [])
  {
  }

  lemma TrackedStep(net: Network, prev: Entry, entries: seq<Entry>, i: nat, lcl: Entry, ts: TxSet, handed: Entry, history: seq<CloseData>)
    requires i < |entries| && Scan(net, prev, entries).Some? && Unwrapped(prev, entries) && entries[i].header.ledgerSeq < SEQ_LIMIT
    requires Tracked(net, prev, entries[..i], lcl, handed, history)
    ensures var e, p := entries[i], Pass(net, lcl, entries[i], ts);
            && (p.0.Passed? ==> Tracked(net, prev, entries[..i + 1], p.1, handed, history))
            && (p.0.Applied? ==> Tracked(net, prev, entries[..i + 1], p.1, e, history + [DataFor(e, ts)]))
  {
    AppliedNames(net, lcl, entries[i], ts);
    hide Scan, Pass, StandsAt, ClosesOf;
    HistoryStep(net, prev, entries, i, lcl, ts);
    if Pass(net, lcl, entries[i], ts).0.Applied? {
      ClosesOneMore(Scan(net, prev, entries[..i]).value, history, entries[i], ts);
    }
  }

  lemma AppliedNames(net: Network, lcl: Entry, e: Entry, ts: TxSet)
    ensures Pass(net, lcl, e, ts).0.Applied? ==> e.header.txSetHash == ts.contentsHash
  {
  }

  // ---------------------------------------------------------------- approval comes first

  /** How the end of a catch-up went: no checkpoint to aim at, nothing usable downloaded, not
      approved, history that could not be applied, or handed back. */
  datatype Finish =
    | NoCheckpoint
    | NoLedger
    | StateMismatch
    | NotApproved(verdict: Verdict)
    | HistoryFailed
    | Finished(outcome: Outcome)

  /** Nothing was applied. */
  predicate Waits(r: Finish)
  {
    !r.HistoryFailed? && !r.Finished?
  }

  /** The ledger a catch-up aims before. */
  function NextOf(net: Network, c: Catchup): nat
    requires net.frequency > 0
  {
    NextCheckpoint(net, c.init, c.cause.Manual?)
  }

  /** What holds of a catch-up of an orderly manager. */
  ghost predicate Underway(net: Network, lastClosed: Entry, buffer: seq<CloseData>, c: Catchup)
  {
    && (net.frequency == 8 || net.frequency == 64) && c.init < SEQ_LIMIT && lastClosed.header.ledgerSeq < SEQ_LIMIT
    && Rising(buffer)
    && (c.cause.Triggered? ==> |buffer| > 0 && buffer[0].ledgerSeq == c.init)
    && (c.cause.Restart? ==> lastClosed.header.ledgerSeq + 1 < c.init)
  }

  /** No automatic catch-up overshoots, triggered or restarted, with a candidate that was approved. */
  lemma AutomaticNeverOvershoots(net: Network, lastClosed: Entry, buffer: seq<CloseData>, c: Catchup, candidate: Entry)
    requires Underway(net, lastClosed, buffer, c) && !c.cause.Manual?
    requires candidate.header.ledgerSeq + 1 == NextOf(net, c) && Approved(lastClosed, buffer, candidate)
    ensures !Replay(net, candidate, buffer, TipOf(buffer)).outcome.Restarted?
  {
    hide NextCheckpoint, Replay, Approved, Contiguous;
    if c.cause.Triggered? {
      CheckpointOverlaps(net, candidate, buffer, c.init, TipOf(buffer));
    } else if |buffer| > 0 {
      RestartNeverOvershoots(net, lastClosed, buffer, buffer[0].ledgerSeq, c.init, candidate, TipOf(buffer));
    } else {
      ReplayUnfolds(net, candidate, buffer, TipOf(buffer));
    }
  }

  /** A catch-up restarted at a checkpoint that hears of the ledger after it first is never approved. */
  lemma NeverApproved(net: Network, lastClosed: Entry, buffer: seq<CloseData>, c: Catchup, candidate: Entry)
    requires Underway(net, lastClosed, buffer, c) && WaitsForNothing(net, buffer, c)
    requires candidate.header.ledgerSeq + 1 == NextOf(net, c)
    ensures !Approved(lastClosed, buffer, candidate)
  {
    hide NextCheckpoint, Trusted;
    RestartUnknown(net, lastClosed, buffer, c.init, candidate);
  }

  ghost predicate WaitsForNothing(net: Network, buffer: seq<CloseData>, c: Catchup)
    requires net.frequency > 0
  {
    c.cause.Restart? && c.init % net.frequency == 0 && |buffer| > 0 && buffer[0].ledgerSeq == c.init + 1
  }

  /** What the end of any catch-up keeps to, whichever way it was started. `candidate` is the ledger
      that was judged, `replayed` what was closed out of the buffer. */
  ghost predicate Promises(net: Network, lastClosed: Entry, buffer: seq<CloseData>, c: Catchup, candidate: Entry,
                           r: Finish, now: Entry, replayed: seq<CloseData>)
    requires net.frequency > 0
  {
    && (WaitsForNothing(net, buffer, c) ==> Waits(r))
    && (r.Finished? ==> Approved(lastClosed, buffer, candidate) && candidate.header.ledgerSeq + 1 == NextOf(net, c))
    && (r.Finished? && !c.cause.Manual? ==> !r.outcome.Restarted?)
    && (r.Finished? && r.outcome.TxSetMismatch? && lastClosed.header.ledgerSeq < candidate.header.ledgerSeq ==> |replayed| > 0)
    && (r.Finished? && (r.outcome.Done? || r.outcome.Restarted?) ==>
          ReplayedFor(net, candidate, buffer, Replayed(r.outcome, now, replayed)))
  }

  /** From the outcome of handing an approved candidate back to the promises. */
  lemma KeepsPromises(net: Network, lastClosed: Entry, buffer: seq<CloseData>, c: Catchup, candidate: Entry, o: Outcome,
                      now: Entry, replayed: seq<CloseData>)
    requires Underway(net, lastClosed, buffer, c) && Approved(lastClosed, buffer, candidate)
    requires candidate.header.ledgerSeq + 1 == NextOf(net, c) && candidate.header.ledgerSeq + 1 < SEQ_LIMIT
    requires o == InvalidHeader || o == AssertionFailed || Replay(net, candidate, buffer, TipOf(buffer)) == Replayed(o, now, replayed)
    ensures Promises(net, lastClosed, buffer, c, candidate, Finished(o), now, replayed)
  {
    hide NextCheckpoint, Replay, Approved, ReplayedFor, Contiguous;
    if WaitsForNothing(net, buffer, c) {
      NeverApproved(net, lastClosed, buffer, c, candidate);
    }
    if !c.cause.Manual? {
      AutomaticNeverOvershoots(net, lastClosed, buffer, c, candidate);
    }
    RisingIsBuffered(buffer);
    ReplayedAsSaid(net, candidate, buffer);
    if lastClosed.header.ledgerSeq < candidate.header.ledgerSeq && |buffer| > 0 {
      ApprovedFirstCloses(net, lastClosed, buffer, buffer[0].ledgerSeq, candidate, TipOf(buffer));
    }
    if |buffer| == 0 {
      ReplayUnfolds(net, candidate, buffer, TipOf(buffer));
    }
  }

  lemma RisingIsBuffered(buffer: seq<CloseData>)
    requires Rising(buffer)
    ensures Buffered(buffer)
  {
  }

  /** Minimal mode: the last header of the download is judged and handed back. */
  method FinishMinimal(lm: LedgerManager, files: seq<seq<Entry>>) returns (r: Finish, ghost candidate: Entry, ghost replayed: seq<CloseData>)
    requires lm.Valid() && lm.catchup.Some? && forall e :: e in Flatten(files) ==> e.header.ledgerSeq < SEQ_LIMIT
    modifies lm
    ensures Waits(r) ==> unchanged(lm)
    ensures !Waits(r) ==> lm.closes == old(lm.closes) + replayed
    ensures old(lm.Orderly()) ==>
              Promises(lm.net, old(lm.lastClosed), old(lm.syncing), old(lm.catchup).value, candidate, r, lm.lastClosed, replayed)
    ensures old(lm.Orderly()) && r != Finished(InvalidHeader) ==> lm.Valid() && lm.Orderly()
    ensures r.Finished? && r.outcome.Done? ==> lm.syncing == [] && lm.state == Synced && lm.catchup == None
    ensures r.Finished? && r.outcome.Restarted? ==>
              lm.syncing == [] && lm.state == CatchingUp && lm.catchup == Some(Catchup(r.outcome.init, Restart))
    ensures |files| == 1 && |files[0]| > 0 && NextOf(lm.net, old(lm.catchup).value) > 0 ==>
              var last := files[0][|files[0]| - 1];
              && (Seq32(last.header.ledgerSeq + 1) == NextOf(lm.net, old(lm.catchup).value)
                  && Approved(old(lm.lastClosed), old(lm.syncing), last) && GoodEntry(lm.net, last) ==>
                    r.Finished? && Replay(lm.net, last, old(lm.syncing), TipOf(old(lm.syncing))) == Replayed(r.outcome, lm.lastClosed, replayed))
  {
    hide NextCheckpoint, GoodEntry, Buffered, Rising, Trusted, Replay, Promises, ReplayedFor;
    candidate, replayed := BLANK, [];
    ghost var lcl, buffer := lm.lastClosed, lm.syncing;
    GoodMeans(lm.net, lcl);
    var c := lm.catchup.value;
    var next := NextOf(lm.net, c);
    NothingPromised(lm.net, lcl, buffer, c, candidate);
    if next == 0 {
      return NoCheckpoint, candidate, replayed;
    }
    if |files| != 1 || |files[0]| == 0 {
      return NoLedger, candidate, replayed;
    }
    var last := files[0][|files[0]| - 1];
    LastInDownload(files);
    candidate := last;
    NothingPromised(lm.net, lcl, buffer, c, candidate);
    if Seq32(last.header.ledgerSeq + 1) != next {
      return StateMismatch, candidate, replayed;
    }
    SuccessorFits(last.header.ledgerSeq);
    var v := lm.VerifyCatchupCandidate(last);
    if v != HashOK {
      return NotApproved(v), candidate, replayed;
    }
    ghost var orderly := lm.Orderly();
    var o := lm.HistoryCaughtup(false, Minimal, last);
    r := Finished(o);
    replayed := if !GoodEntry(lm.net, last) then [] else Replay(lm.net, last, buffer, TipOf(buffer)).closes;
    if orderly {
      KeepsPromises(lm.net, lcl, buffer, c, last, o, lm.lastClosed, replayed);
    }
  }

  lemma NothingPromised(net: Network, lastClosed: Entry, buffer: seq<CloseData>, c: Catchup, candidate: Entry)
    requires net.frequency > 0
    ensures forall r, now, replayed :: Waits(r) ==> Promises(net, lastClosed, buffer, c, candidate, r, now, replayed)
  {
  }

  lemma LastInDownload(files: seq<seq<Entry>>)
    requires |files| == 1 && |files[0]| > 0
    ensures files[0][|files[0]| - 1] in Flatten(files)
  {
    assert Flatten(files[..0]) == [];
    assert Flatten(files) == Flatten(files[..0]) + files[0];
  }

  lemma SuccessorFits(s: nat)
    requires s < SEQ_LIMIT && Seq32(s + 1) > 0
    ensures s + 1 < SEQ_LIMIT && Seq32(s + 1) == s + 1
  {
  }

  lemma VerifiedIsApproved(net: Network, lastClosed: Entry, buffer: seq<CloseData>, entries: seq<Entry>, next: nat, chain: seq<Entry>)
    requires lastClosed.header.ledgerSeq < SEQ_LIMIT && Scan(net, lastClosed, entries) == Some(chain)
    requires Verify(net, lastClosed, NextHeader(lastClosed), buffer, entries, next) == HashOK
    ensures Approved(lastClosed, buffer, LastOf(lastClosed, chain))
    ensures Unwrapped(lastClosed, entries) ==>
              LastOf(lastClosed, chain).header.ledgerSeq + 1 == next && next < SEQ_LIMIT
  {
    hide Trusted, Scan;
    VerifiedChain(net, lastClosed, NextHeader(lastClosed), buffer, entries, next);
    ScanLength(net, lastClosed, entries);
  }

  lemma HandedIsCandidate(lastClosed: Entry, chain: seq<Entry>, handed: Entry, closed: Entry)
    requires handed == Handed(chain) && (|chain| == 0 ==> closed == lastClosed)
    ensures handed == closed ==> handed == LastOf(lastClosed, chain)
  {
  }

  /** Complete mode: the whole chain is verified and its last header judged, then the history is
      applied, and the last ledger applied is handed back. When there was none to apply, what is
      handed back was never set, which fails an assertion. */
  method FinishComplete(lm: LedgerManager, files: seq<seq<Entry>>, sets: TxSets)
    returns (r: Finish, ghost candidate: Entry, ghost history: seq<CloseData>, ghost replayed: seq<CloseData>)
    requires lm.Valid() && lm.catchup.Some? && forall e :: e in Flatten(files) ==> e.header.ledgerSeq < SEQ_LIMIT
    modifies lm
    ensures Waits(r) ==> unchanged(lm)
    ensures r.Finished? ==> lm.closes == old(lm.closes) + history + replayed
    ensures old(lm.Orderly()) && Unwrapped(old(lm.lastClosed), Flatten(files)) ==>
              && (!r.HistoryFailed? ==>
                    Promises(lm.net, old(lm.lastClosed), old(lm.syncing), old(lm.catchup).value, candidate, r, lm.lastClosed, replayed))
              && (WaitsForNothing(lm.net, old(lm.syncing), old(lm.catchup).value) ==> Waits(r))
    ensures r.Finished? && Unwrapped(old(lm.lastClosed), Flatten(files)) ==>
              var scan := Scan(lm.net, old(lm.lastClosed), Flatten(files));
              && scan.Some? && candidate == LastOf(old(lm.lastClosed), scan.value) && ClosesOf(scan.value, history)
              && (|scan.value| == 0 && old(lm.lastClosed) != BLANK ==> r.outcome == AssertionFailed)
    ensures r.Finished? && r.outcome.Done? ==> lm.syncing == [] && lm.state == Synced && lm.catchup == None
    ensures r.Finished? && r.outcome.Restarted? ==>
              lm.syncing == [] && lm.state == CatchingUp && lm.catchup == Some(Catchup(r.outcome.init, Restart))
    ensures r.Finished? ==> lm.Valid()
    ensures var entries := Flatten(files);
            (&& NextOf(lm.net, old(lm.catchup).value) > 0 && |entries| > 0 && Reproducible(lm.net, old(lm.lastClosed), entries, sets)
             && Verify(lm.net, old(lm.lastClosed), old(lm.current), old(lm.syncing), entries, NextOf(lm.net, old(lm.catchup).value)) == HashOK) ==>
              r.Finished? && Replay(lm.net, entries[|entries| - 1], old(lm.syncing), TipOf(old(lm.syncing))) == Replayed(r.outcome, lm.lastClosed, replayed)
    ensures old(lm.Orderly()) && Unwrapped(old(lm.lastClosed), Flatten(files)) && r.Finished? ==> lm.Orderly()
  {
    hide NextCheckpoint, GoodEntry, Buffered, Rising, Trusted, Replay, Promises, ReplayedFor, Scan, StandsAt, ClosesOf, Verify, Chained, Reproducible;
    candidate, history, replayed := BLANK, [], [];
    ghost var lcl, buffer := lm.lastClosed, lm.syncing;
    GoodMeans(lm.net, lcl);
    var c := lm.catchup.value;
    var next := NextOf(lm.net, c);
    NothingPromised(lm.net, lcl, buffer, c, candidate);
    if next == 0 {
      return NoCheckpoint, candidate, history, replayed;
    }
    ghost var chain;
    var v;
    v, chain := VerifyHistoryFromLastClosedLedger(lm, files, next);
    if v != HashOK {
      return NotApproved(v), candidate, history, replayed;
    }
    var entries := Flatten(files);
    ghost var orderly, unwrapped := lm.Orderly(), Unwrapped(lcl, entries);
    VerifiedIsApproved(lm.net, lcl, buffer, entries, next, chain);
    candidate := LastOf(lcl, chain);
    if orderly && unwrapped && WaitsForNothing(lm.net, buffer, c) {
      NeverApproved(lm.net, lcl, buffer, c, candidate);
    }
    var ok, handed;
    ok, handed, history := ApplyHistory(lm, entries, sets);
    if !ok {
      return HistoryFailed, candidate, history, replayed;
    }
    ghost var closed := lm.lastClosed;
    var o := lm.HistoryCaughtup(false, Complete, handed);
    r := Finished(o);
    replayed := if handed != closed then [] else Replay(lm.net, handed, buffer, TipOf(buffer)).closes;
    if orderly && unwrapped {
      HandedIsCandidate(lcl, chain, handed, closed);
      KeepsPromises(lm.net, lcl, buffer, c, candidate, o, lm.lastClosed, replayed);
    }
  }

  // ---------------------------------------------------------------- after an overshoot

  lemma {:induction false} HeardFirst(buffer: seq<CloseData>, ds: seq<CloseData>)
    requires |buffer| > 0
    ensures |Heard(buffer, ds)| > 0 && Heard(buffer, ds)[0] == buffer[0]
    decreases |ds|
  {
    if |ds| > 0 {
      HeardFirst(buffer, ds[..|ds| - 1]);
    }
  }

  /** A catch-up restarted at a checkpoint that hears of the ledger after it first waits for ever:
      whatever consensus it hears of and whatever it downloads, nothing is approved. */
  method WaitsForEver(lm: LedgerManager, ds: seq<CloseData>, files: seq<seq<Entry>>) returns (r: Finish)
    requires lm.Valid() && lm.Orderly() && lm.catchup.Some? && WaitsForNothing(lm.net, lm.syncing, lm.catchup.value)
    requires forall d :: d in ds ==> 0 < d.ledgerSeq < SEQ_LIMIT
    requires forall e :: e in Flatten(files) ==> e.header.ledgerSeq < SEQ_LIMIT
    modifies lm
    ensures Waits(r) && lm.Valid() && lm.Orderly() && lm.state == CatchingUp
    ensures lm.catchup == old(lm.catchup) && lm.lastClosed == old(lm.lastClosed) && lm.closes == old(lm.closes)
    ensures WaitsForNothing(lm.net, lm.syncing, lm.catchup.value)
  {
    hide NextCheckpoint, GoodEntry, Buffered, Rising, Trusted, Replay, ReplayedFor;
    HeardFirst(lm.syncing, ds);
    ExternalizeAll(lm, ds);
    ghost var candidate, replayed;
    r, candidate, replayed := FinishMinimal(lm, files);
  }

  /** An overshoot is reached by hand: a catch-up started at the next ledger is handed back the last
      closed one, which is approved, while a later ledger has been buffered. The catch-up that this
      restarts at a checkpoint hears of the ledger after it, and waits. */
  method OvershootOnce(net: Network, genesis: Entry, d: CloseData, next: CloseData, files: seq<seq<Entry>>)
    returns (lm: LedgerManager, once: Finish, after: Finish)
    requires (net.frequency == 8 || net.frequency == 64) && GoodEntry(net, genesis)
    requires genesis.header.ledgerSeq + 1 < d.ledgerSeq && d.ledgerSeq + 2 < SEQ_LIMIT
    requires d.ledgerSeq % net.frequency == 0 && next.ledgerSeq == d.ledgerSeq + 1
    requires forall e :: e in Flatten(files) ==> e.header.ledgerSeq < SEQ_LIMIT
    ensures fresh(lm) && once == Finished(Restarted(d.ledgerSeq)) && Waits(after)
    ensures lm.closes == [] && lm.state == CatchingUp && lm.catchup == Some(Catchup(d.ledgerSeq, Restart))
  {
    hide GoodEntry, Replay, Buffered, Rising, Trusted, ReplayedFor, Approved, Promises, Closed, Flatten, ReplayedExactly, Acceptable;
    GenesisIsApproved(net, genesis, d);
    lm := new LedgerManager(net, genesis);
    var _ := lm.StartCatchUp(genesis.header.ledgerSeq + 1, Manual);
    var _ := lm.ExternalizeValue(d);
    assert lm.syncing == [d];
    ghost var candidate, replayed;
    once, candidate, replayed := FinishMinimal(lm, [[genesis]]);
    var _ := lm.ExternalizeValue(next);
    after := WaitsForEver(lm, [], files);
  }

  lemma GenesisIsApproved(net: Network, genesis: Entry, d: CloseData)
    requires GoodEntry(net, genesis) && genesis.header.ledgerSeq + 1 < d.ledgerSeq && d.ledgerSeq + 2 < SEQ_LIMIT
    ensures Approved(genesis, [d], genesis)
    ensures Replay(net, genesis, [d], d.ledgerSeq) == Replayed(Restarted(d.ledgerSeq), genesis, [])
    ensures forall e :: e in Flatten([[genesis]]) ==> e == genesis
  {
    assert [[genesis]][..0] == [];
    assert Flatten([[genesis]]) == Flatten([]) + [genesis];
  }
}
