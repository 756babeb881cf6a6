/** Looking keys up in the bucket list, against a plain map of ledger entries. */
module BucketLookup {
  import opened Options
  import opened Buckets
  import opened BucketLevels
  import opened BucketTiling

  /** Newest-first lookup from level `i` down: curr, then snap, then the older levels. */
  function LookupFrom(ls: seq<Level>, i: nat, k: LedgerKey): Option<BucketEntry>
    requires i <= |ls|
    decreases |ls| - i
  {
    if i == |ls| then None
    else Override(Override(LookupFrom(ls, i + 1, k), Find(ls[i].snap, k)), Find(ls[i].curr, k))
  }

  function Lookup(ls: seq<Level>, k: LedgerKey): Option<BucketEntry>
  {
    LookupFrom(ls, 0, k)
  }

  lemma CoveredLookup(b: Bucket, bs: seq<Batch>, lo: nat, hi: nat, k: LedgerKey)
    requires lo <= hi <= |bs| && Covers(b, bs, lo, hi) && LastIn(bs, hi, |bs|, k).None?
    ensures Find(b, k) == LastIn(bs, lo, hi, k)
    ensures Find(b, k).None? ==> LastIn(bs, lo, |bs|, k).None?
  {
    LastInSplit(bs, lo, hi, |bs|, k);
  }

  lemma LastInNone(bs: seq<Batch>, k: LedgerKey)
    ensures LastIn(bs, 0, 0, k) == None
  {
  }

  lemma {:induction false} LookupFromIsLatest(ls: seq<Level>, bs: seq<Batch>, i: nat, k: LedgerKey)
    requires ListOK(ls, bs) && i < NUM_LEVELS
    requires LastIn(bs, CurrHigh(i, |bs|), |bs|, k).None?
    ensures LookupFrom(ls, i, k) == LastIn(bs, 0, CurrHigh(i, |bs|), k)
    decreases NUM_LEVELS - i
  {
    hide Covers, CurrLow, SnapLow, CurrHigh, NextOK, LastIn, Find;
    var t, l := |bs|, ls[i];
    LastInNone(bs, k);
    assert LevelOK(l, i, bs);
    RangesTile(i, t);
    var lo, mid, hi := SnapLow(i, t), CurrLow(i, t), CurrHigh(i, t);
    LastInSplit(bs, 0, mid, hi, k);
    LastInSplit(bs, 0, lo, mid, k);
    CoveredLookup(l.curr, bs, mid, hi, k);
    if Find(l.curr, k).None? {
      CoveredLookup(l.snap, bs, lo, mid, k);
      if Find(l.snap, k).None? && i + 1 < NUM_LEVELS {
        LookupFromIsLatest(ls, bs, i + 1, k);
      }
    }
  }

  /** After any run of consecutive ledgers with duplicate-free batches, the lookup gives each key
      exactly its latest written value or tombstone. */
  lemma LookupIsLatest(bs: seq<Batch>, k: LedgerKey)
    requires ValidBatches(bs) && |bs| < 0x1_0000_0000
    ensures Lookup(After(bs), k) == LastIn(bs, 0, |bs|, k)
  {
    AfterOK(bs);
    LookupFromIsLatest(After(bs), bs, 0, k);
  }

  // ---------------------------------------------------------------- nothing lost, nothing twice

  /** The key is written at ledger `t` and at no other. */
  ghost predicate WrittenOnlyAt(bs: seq<Batch>, t: nat, k: LedgerKey)
  {
    && 1 <= t <= |bs|
    && forall u :: 0 <= u < |bs| ==> (Find(BatchBucket(bs[u]), k).Some? <==> u == t - 1)
  }

  lemma {:induction false} LastInWrittenOnly(bs: seq<Batch>, t: nat, k: LedgerKey, lo: nat, hi: nat)
    requires WrittenOnlyAt(bs, t, k) && hi <= |bs|
    ensures LastIn(bs, lo, hi, k).Some? <==> lo < t <= hi
    decreases hi
  {
    if lo < hi {
      LastInWrittenOnly(bs, t, k, lo, hi - 1);
    }
  }

  /** A batch is held by exactly the bucket whose ledger range contains it. */
  lemma HeldInItsRange(bs: seq<Batch>, t: nat, k: LedgerKey, i: nat)
    requires ValidBatches(bs) && |bs| < 0x1_0000_0000 && WrittenOnlyAt(bs, t, k) && i < NUM_LEVELS
    ensures var l := After(bs)[i];
            && (Find(l.curr, k).Some? <==> CurrLow(i, |bs|) < t <= CurrHigh(i, |bs|))
            && (Find(l.snap, k).Some? <==> SnapLow(i, |bs|) < t <= CurrLow(i, |bs|))
  {
    hide CurrLow, SnapLow, CurrHigh;
    AfterOK(bs);
    assert LevelOK(After(bs)[i], i, bs);
    LastInWrittenOnly(bs, t, k, CurrLow(i, |bs|), CurrHigh(i, |bs|));
    LastInWrittenOnly(bs, t, k, SnapLow(i, |bs|), CurrLow(i, |bs|));
    LastInWrittenOnly(bs, t, k, CurrHigh(i, |bs|), |bs|);
    LastInWrittenOnly(bs, t, k, CurrLow(i, |bs|), |bs|);
  }

  /** Every ledger closed so far lies in the range of exactly one bucket. */
  lemma {:induction false} ExactlyOneRange(t: nat, now: nat, n: nat) returns (i: nat, inCurr: bool)
    requires n < NUM_LEVELS && 1 <= t <= CurrHigh(n, now)
    ensures n <= i < NUM_LEVELS
    ensures inCurr ==> CurrLow(i, now) < t <= CurrHigh(i, now)
    ensures !inCurr ==> SnapLow(i, now) < t <= CurrLow(i, now)
    ensures forall j :: n <= j < NUM_LEVELS ==>
              && (CurrLow(j, now) < t <= CurrHigh(j, now) <==> j == i && inCurr)
              && (SnapLow(j, now) < t <= CurrLow(j, now) <==> j == i && !inCurr)
    decreases NUM_LEVELS - n
  {
    hide CurrLow, SnapLow, CurrHigh;
    RangesTile(n, now);
    if t > SnapLow(n, now) {
      i, inCurr := n, t > CurrLow(n, now);
      forall j | n < j < NUM_LEVELS ensures CurrHigh(j, now) < t && CurrLow(j, now) < t {
        CurrHighAbove(n, j, now);
        RangesTile(j, now);
      }
    } else {
      i, inCurr := ExactlyOneRange(t, now, n + 1);
    }
  }

  // ---------------------------------------------------------------- the plain map

  type Database = map<LedgerKey, LedgerEntry>

  /** One ledger close on a plain map: live entries are written, dead keys removed. */
  function Close(db: Database, b: Batch): Database
  {
    map k | k in db.Keys + (set e | e in b.live :: LedgerEntryKey(e)) && k !in b.dead
      :: match Find(LiveEntries(b.live), k)
         case Some(Live(e)) => e
         case _ => if k in db then db[k] else Account(0, 0)
  }

  function DatabaseAfter(bs: seq<Batch>): Database
  {
    if |bs| == 0 then map[] else Close(DatabaseAfter(bs[..|bs| - 1]), bs[|bs| - 1])
  }

  /** What a database says about a key, in the words of a bucket entry. */
  ghost predicate Agrees(db: Database, k: LedgerKey, found: Option<BucketEntry>)
  {
    match found
    case Some(Live(e)) => k in db && db[k] == e
    case _ => k !in db
  }

  lemma FindLive(live: seq<LedgerEntry>, k: LedgerKey)
    ensures Find(LiveEntries(live), k).Some? <==> exists e :: e in live && LedgerEntryKey(e) == k
    ensures Find(LiveEntries(live), k).Some? ==> Find(LiveEntries(live), k).value.Live?
  {
    var b := LiveEntries(live);
    FindIff(b, k);
    if Contains(b, k) {
      var i :| 0 <= i < |b| && Id(b[i]) == k;
      assert live[i] in live;
    }
    forall e | e in live && LedgerEntryKey(e) == k ensures Contains(b, k) {
      var i :| 0 <= i < |live| && live[i] == e;
      assert Id(b[i]) == k;
    }
  }

  /** One ledger close on the map and the bucket of that close say the same. */
  lemma CloseAgrees(db: Database, b: Batch, k: LedgerKey, found: Option<BucketEntry>)
    requires ValidBatches([b]) && Agrees(db, k, found)
    ensures Agrees(Close(db, b), k, Override(found, Find(BatchBucket(b), k)))
  {
    assert b == [b][0];
    FreshCorrect(b.live, b.dead, k);
    FindLive(b.live, k);
  }

  lemma {:induction false} DatabaseAgrees(bs: seq<Batch>, k: LedgerKey)
    requires ValidBatches(bs)
    ensures Agrees(DatabaseAfter(bs), k, LastIn(bs, 0, |bs|, k))
  {
    hide Close, Agrees, Find, BatchBucket, DistinctIds, LiveEntries, DeadEntries;
    if |bs| != 0 {
      var front, x := bs[..|bs| - 1], bs[|bs| - 1];
      DatabaseAgrees(front, k);
      assert ValidBatches([x]);
      CloseAgrees(DatabaseAfter(front), x, k, LastIn(front, 0, |front|, k));
      LastInPrefix(front, x, 0, |front|, k);
      assert front + [x] == bs;
    } else {
      NothingAgrees(k);
    }
  }

  lemma NothingAgrees(k: LedgerKey)
    ensures Agrees(map[], k, None)
  {
  }

  /** The bucket list refines a plain map: after every ledger the lookup and the map agree on every key. */
  lemma ListRefinesMap(bs: seq<Batch>, k: LedgerKey)
    requires ValidBatches(bs) && |bs| < 0x1_0000_0000
    ensures Agrees(DatabaseAfter(bs), k, Lookup(After(bs), k))
  {
    LookupIsLatest(bs, k);
    DatabaseAgrees(bs, k);
  }
}
