/** Exactly what each bucket of the list holds: merges drop what newer levels shadow, so a bucket
    holds the latest write in its ledgers of each key that was not written again by the time the
    bucket was made. */
module BucketContents {
  import opened Options
  import opened Buckets
  import opened BucketLevels
  import opened BucketTiling
  import opened BucketLookup
  import opened Division

  // ---------------------------------------------------------------- one ledger close

  /** The key is in a curr or a snap of the first `n` levels. */
  ghost predicate HeldBelow(ls: seq<Level>, n: nat, k: LedgerKey)
    requires n <= |ls|
  {
    exists i :: 0 <= i < n && (Find(ls[i].curr, k).Some? || Find(ls[i].snap, k).Some?)
  }

  lemma {:induction false} ShadowedIff(ls: seq<Level>, n: nat, k: LedgerKey)
    requires n <= |ls|
    ensures Shadowed(k, Shadows(ls, n)) <==> HeldBelow(ls, n, k)
  {
    hide Find, Contains;
    if n > 0 {
      var front, l := Shadows(ls, n - 1), ls[n - 1];
      ShadowedIff(ls, n - 1, k);
      FindIff(l.curr, k);
      FindIff(l.snap, k);
      ShadowedByEither(front, l.curr, l.snap, k);
      assert HeldBelow(ls, n, k) <==> HeldBelow(ls, n - 1, k) || Find(l.curr, k).Some? || Find(l.snap, k).Some?;
    }
  }

  lemma ShadowedByEither(front: seq<Bucket>, curr: Bucket, snap: Bucket, k: LedgerKey)
    ensures Shadowed(k, front + [curr, snap]) <==> Shadowed(k, front) || Contains(curr, k) || Contains(snap, k)
  {
    hide Contains;
    var all := front + [curr, snap];
    assert all[|front|] == curr && all[|front| + 1] == snap;
    if Shadowed(k, front) {
      var j :| 0 <= j < |front| && Contains(front[j], k);
      assert all[j] == front[j];
    }
  }

  /** The merge a level has pending after the level below it spilled holds no key that a curr or snap
      of the levels below the spilling one held before the close, and every other key of its two
      inputs: the bucket spilled, over the level's curr unless that is skipped. */
  ghost predicate HoldsUnshadowed(ls: seq<Level>, ledger: nat, j: nat, l: Level, k: LedgerKey)
    requires |ls| == NUM_LEVELS && 0 < j < NUM_LEVELS
  {
    && IsLive(l.next)
    && Find(Resolve(l.next), k) ==
       if HeldBelow(ls, j - 1, k) then None
       else Override(if SkipsCurr(j, ledger) then None else Find(l.curr, k), Find(ls[j - 1].curr, k))
  }

  lemma SpillDropsShadowed(ls: seq<Level>, ledger: nat, batch: Batch, j: nat, k: LedgerKey)
    requires |ls| == NUM_LEVELS && 0 < j < NUM_LEVELS && LevelShouldSpill(ledger, j - 1)
    requires Sorted(AddBatch(ls, ledger, batch)[j].curr) && Sorted(ls[j - 1].curr)
    ensures HoldsUnshadowed(ls, ledger, j, AddBatch(ls, ledger, batch)[j], k)
  {
    hide LevelShouldSpill, Commit, Snapped, SkipsCurr, HeldBelow, Sorted, Merge, Shadowed, Shadows;
    var l := AddBatch(ls, ledger, batch)[j];
    ShadowedIff(ls, j - 1, k);
    NoneSorted(k);
    assert l == NewLevel(ls, ledger, batch, j);
    FindMerge(if SkipsCurr(j, ledger) then [] else l.curr, ls[j - 1].curr, Shadows(ls, j - 1), k);
  }

  /** The buckets a list holds or will hold are sorted. */
  ghost predicate SortedLevels(ls: seq<Level>)
  {
    forall i :: 0 <= i < |ls| ==> Sorted(ls[i].curr) && (IsLive(ls[i].next) ==> Sorted(Resolve(ls[i].next)))
  }

  ghost predicate ShadowsDropped(ls: seq<Level>, ledger: nat, now: seq<Level>)
    requires |ls| == |now| == NUM_LEVELS
  {
    forall j, k :: 0 < j < NUM_LEVELS && LevelShouldSpill(ledger, j - 1) ==> HoldsUnshadowed(ls, ledger, j, now[j], k)
  }

  /** A ledger close drops what is shadowed, at every level that is spilled into, and nothing else. */
  lemma CloseDropsShadowed(ls: seq<Level>, ledger: nat, batch: Batch)
    requires |ls| == NUM_LEVELS && SortedLevels(ls)
    ensures ShadowsDropped(ls, ledger, AddBatch(ls, ledger, batch))
  {
    hide LevelShouldSpill, HoldsUnshadowed, Sorted, AddBatch, Resolve;
    forall j, k | 0 < j < NUM_LEVELS && LevelShouldSpill(ledger, j - 1)
      ensures HoldsUnshadowed(ls, ledger, j, AddBatch(ls, ledger, batch)[j], k)
    {
      CommittedCurr(ls, ledger, batch, j);
      NoneSorted(k);
      assert Sorted(ls[j].curr) && Sorted(ls[j - 1].curr);
      SpillDropsShadowed(ls, ledger, batch, j, k);
    }
  }

  lemma NoneSorted(k: LedgerKey)
    ensures Sorted([]) && Find([], k) == None
  {
  }

  /** What a spill does to the two buckets of a level: the snap takes over the curr when the level
      itself spills, and the curr what was pending when the level below does. */
  lemma SpillMoves(ls: seq<Level>, ledger: nat, batch: Batch, j: nat)
    requires |ls| == NUM_LEVELS && j < NUM_LEVELS
    ensures var l := AddBatch(ls, ledger, batch)[j];
            && l.snap == (if LevelShouldSpill(ledger, j) then ls[j].curr else ls[j].snap)
            && (j > 0 && LevelShouldSpill(ledger, j - 1) && IsLive(ls[j].next) ==> l.curr == Resolve(ls[j].next))
            && (j > 0 && !LevelShouldSpill(ledger, j - 1) && !LevelShouldSpill(ledger, j) ==> l == ls[j])
  {
    hide LevelShouldSpill, Merge, Resolve, SkipsCurr, Shadows;
  }

  // ---------------------------------------------------------------- over runs

  /** After a run the first levels hold exactly the keys written in their ledgers. */
  lemma {:induction false} HeldBelowIff(ls: seq<Level>, bs: seq<Batch>, n: nat, k: LedgerKey)
    requires ListOK(ls, bs) && n < NUM_LEVELS && CurrHigh(n, |bs|) <= |bs|
    ensures HeldBelow(ls, n, k) <==> LastIn(bs, CurrHigh(n, |bs|), |bs|, k).Some?
  {
    hide Covers, CurrLow, SnapLow, NextOK, LastIn, Find;
    var t := |bs|;
    if n > 0 {
      var l := ls[n - 1];
      assert LevelOK(l, n - 1, bs);
      RangesTile(n - 1, t);
      HeldBelowIff(ls, bs, n - 1, k);
      HeldStep(l, bs, SnapLow(n - 1, t), CurrLow(n - 1, t), CurrHigh(n - 1, t), k);
      assert HeldBelow(ls, n, k) <==> HeldBelow(ls, n - 1, k) || Find(l.curr, k).Some? || Find(l.snap, k).Some?;
    } else {
      NothingWritten(bs, t, k);
    }
  }

  lemma NothingWritten(bs: seq<Batch>, t: nat, k: LedgerKey)
    requires t <= |bs|
    ensures LastIn(bs, t, t, k) == None
  {
  }

  lemma HeldStep(l: Level, bs: seq<Batch>, lo: nat, mid: nat, hi: nat, k: LedgerKey)
    requires lo <= mid <= hi <= |bs| && Covers(l.curr, bs, mid, hi) && Covers(l.snap, bs, lo, mid)
    ensures LastIn(bs, lo, |bs|, k).Some? <==>
            LastIn(bs, hi, |bs|, k).Some? || Find(l.curr, k).Some? || Find(l.snap, k).Some?
  {
    LastInSplit(bs, lo, hi, |bs|, k);
    LastInSplit(bs, lo, mid, hi, k);
    LastInSplit(bs, mid, hi, |bs|, k);
    hide LastIn, Find;
  }

  lemma {:induction false} LastInFront(bs: seq<Batch>, n: nat, lo: nat, hi: nat, k: LedgerKey)
    requires hi <= n <= |bs|
    ensures LastIn(bs[..n], lo, hi, k) == LastIn(bs, lo, hi, k)
    decreases hi
  {
    hide Find, BatchBucket;
    if lo < hi {
      LastInFront(bs, n, lo, hi - 1, k);
    }
  }

  /** A bucket made when the ledgers up to `seen` were closed, for the ledgers (lo, hi]. */
  function Content(bs: seq<Batch>, lo: nat, hi: nat, seen: nat, k: LedgerKey): Option<BucketEntry>
    requires hi <= |bs| && seen <= |bs|
  {
    if LastIn(bs, hi, seen, k).Some? then None else LastIn(bs, lo, hi, k)
  }

  lemma ContentFront(bs: seq<Batch>, n: nat, lo: nat, hi: nat, seen: nat, k: LedgerKey)
    requires hi <= n <= |bs| && seen <= n
    ensures Content(bs[..n], lo, hi, seen, k) == Content(bs, lo, hi, seen, k)
  {
    LastInFront(bs, n, lo, hi, k);
    LastInFront(bs, n, hi, seen, k);
  }

  lemma FrontValid(bs: seq<Batch>, n: nat)
    requires ValidBatches(bs) && n <= |bs|
    ensures ValidBatches(bs[..n])
  {
    hide DistinctIds, LiveEntries, DeadEntries;
  }

  lemma MergedContent(curr: Bucket, recent: Bucket, bs: seq<Batch>, lo: nat, mid: nat, hi: nat, k: LedgerKey)
    requires lo <= mid <= hi <= |bs| && Covers(curr, bs, lo, mid) && Covers(recent, bs, mid, hi)
    requires LastIn(bs, hi, |bs|, k).None?
    ensures Override(Find(curr, k), Find(recent, k)) == LastIn(bs, lo, hi, k)
  {
    LastInSplit(bs, lo, mid, hi, k);
    LastInSplit(bs, mid, hi, |bs|, k);
    hide LastIn, Find;
  }

  lemma CommittedCurr(ls: seq<Level>, ledger: nat, x: Batch, j: nat)
    requires |ls| == NUM_LEVELS && 0 < j < NUM_LEVELS && LevelShouldSpill(ledger, j - 1)
    ensures AddBatch(ls, ledger, x)[j].curr == Commit(Snapped(ls, ledger, j)).curr
  {
    hide LevelShouldSpill, Commit, Snapped, SkipsCurr, Shadows;
  }

  lemma CoversSorted(b: Bucket, bs: seq<Batch>, lo: nat, hi: nat)
    requires lo <= hi <= |bs| && Covers(b, bs, lo, hi)
    ensures Sorted(b)
  {
  }

  /** What the merge prepared at a spill holds. */
  lemma SpillContent(ls: seq<Level>, bs: seq<Batch>, x: Batch, j: nat, k: LedgerKey)
    requires ListOK(ls, bs) && 0 < j < NUM_LEVELS && AtSpill(j - 1, |bs| + 1) && |bs| + 1 < 0x1_0000_0000
    ensures var t, next := |bs| + 1, AddBatch(ls, |bs| + 1, x)[j].next;
            && CurrLow(j - 1, t) <= |bs| && IsLive(next)
            && Find(Resolve(next), k) == Content(bs, NextLow(j, t), CurrLow(j - 1, t), |bs|, k)
  {
    hide Covers, CurrLow, SnapLow, Half, SkipsCurr, Skipping, AtSpill, LevelShouldSpill, Commit, Snapped, HeldBelow, Find, LastIn, Sorted, AddBatch, Resolve;
    var t := |bs| + 1;
    var l, recent := AddBatch(ls, t, x)[j], ls[j - 1].curr;
    var lo, mid, hi := NextLow(j, t), CurrHigh(j, t), CurrLow(j - 1, t);
    SpillsAt(j - 1, t);
    SkipIff(j, t);
    RangesSpill(j - 1, t);
    RangesTile(j - 1, |bs|);
    assert LevelOK(ls[j - 1], j - 1, bs);
    CommittedCurr(ls, t, x, j);
    CommitStandsFor(ls, bs, j);
    CoversSorted(l.curr, bs, CurrLow(j, t), mid);
    CoversSorted(recent, bs, mid, hi);
    SpillDropsShadowed(ls, t, x, j, k);
    HeldBelowIff(ls, bs, j - 1, k);
    EmptyCovers(bs, mid);
    NoneSorted(k);
    if LastIn(bs, hi, |bs|, k).None? {
      MergedContent(if SkipsCurr(j, t) then [] else l.curr, recent, bs, lo, mid, hi, k);
    }
  }

  lemma AfterOneMore(bs: seq<Batch>)
    requires |bs| > 0
    ensures After(bs) == AddBatch(After(bs[..|bs| - 1]), |bs|, bs[|bs| - 1])
  {
    hide AddBatch, EmptyLevels;
  }

  /** Between spills from below a level stays as it is. */
  lemma {:induction false} RestsSinceSpill(bs: seq<Batch>, j: nat)
    requires 0 < j < NUM_LEVELS && Mask(|bs|, Half(j - 1)) <= |bs|
    ensures After(bs)[j] == After(bs[..Mask(|bs|, Half(j - 1))])[j]
    decreases |bs|
  {
    hide After, Mask, AtSpill, LevelShouldSpill, Half, AddBatch;
    var t, T := |bs|, Mask(|bs|, Half(j - 1));
    if t == 0 || AtSpill(j - 1, t) {
      StartsNow(t, j - 1);
      assert bs[..t] == bs;
    } else {
      var front := bs[..t - 1];
      AfterOneMore(bs);
      QuietRanges(j, t);
      QuietMask(j - 1, t);
      SpillMoves(After(front), t, bs[t - 1], j);
      MaskAtMost(t - 1, Half(j - 1));
      RestsSinceSpill(front, j);
      assert front[..T] == bs[..T];
    }
  }

  lemma StartsNow(t: nat, i: nat)
    requires i < NUM_LEVELS && (t == 0 || AtSpill(i, t))
    ensures Mask(t, Half(i)) == t
  {
    hide Half;
    MaskAtMost(t, Half(i));
  }

  /** The ledger at which level `j` last prepared a merge, and the one before it. */
  function Prepared(j: nat, t: nat): nat
    requires 0 < j < NUM_LEVELS
  {
    Mask(t, Half(j - 1))
  }

  lemma PreparedFacts(j: nat, t: nat)
    requires 0 < j < NUM_LEVELS && t >= Half(j - 1)
    ensures Half(j - 1) <= Prepared(j, t) <= t && AtSpill(j - 1, Prepared(j, t))
    ensures Prepared(j, Prepared(j, t) - 1) == Prepared(j, t) - Half(j - 1)
  {
    hide Half;
    var h := Half(j - 1);
    var q, r := Divided(t, h);
    MulAtLeast(q, h);
    DivisionUnique(h, q, 0);
    MaskStep(q * h, h);
  }

  /** After any run, the pending merge of a level holds for each key the latest write in the merge's
      ledgers, unless the key was written again before the ledger at which it was prepared. */
  lemma PendingIs(bs: seq<Batch>, j: nat, k: LedgerKey)
    requires ValidBatches(bs) && 0 < j < NUM_LEVELS && Half(j - 1) <= |bs| < 0x1_0000_0000
    ensures var p, next := Prepared(j, |bs|), After(bs)[j].next;
            && 0 < p <= |bs| && CurrLow(j - 1, p) <= |bs| && IsLive(next)
            && Find(Resolve(next), k) == Content(bs, NextLow(j, p), CurrLow(j - 1, p), p - 1, k)
  {
    hide After, Prepared, AtSpill, Half, CurrLow, NextLow, Resolve, Find, Content, ListOK;
    var p := Prepared(j, |bs|);
    PreparedFacts(j, |bs|);
    PreparedIs(j, |bs|);
    RestsSinceSpill(bs, j);
    var now := bs[..p];
    var front := now[..p - 1];
    AfterOneMore(now);
    FrontValid(bs, p);
    FrontValid(now, p - 1);
    AfterOK(front);
    SpillContent(After(front), front, now[p - 1], j, k);
    ContentFront(bs, p - 1, NextLow(j, p), CurrLow(j - 1, p), p - 1, k);
    assert bs[..p - 1] == front;
  }

  lemma PreparedIs(j: nat, t: nat)
    requires 0 < j < NUM_LEVELS
    ensures Prepared(j, t) == Mask(t, Half(j - 1)) <= t
  {
    MaskAtMost(t, Half(j - 1));
  }

  /** After any run, the curr of a level above 0 is what its merge before last resolved to: prepared
      at `p`, it holds for each key the latest write in its ledgers, unless written again before `p`. */
  lemma CurrIs(bs: seq<Batch>, j: nat, k: LedgerKey)
    requires ValidBatches(bs) && 0 < j < NUM_LEVELS && 2 * Half(j - 1) <= Prepared(j, |bs|) && |bs| < 0x1_0000_0000
    ensures var p := Prepared(j, |bs|) - Half(j - 1);
            && 0 < p <= |bs| && CurrLow(j - 1, p) <= |bs|
            && Find(After(bs)[j].curr, k) == Content(bs, NextLow(j, p), CurrLow(j - 1, p), p - 1, k)
  {
    hide After, Prepared, AtSpill, Half, CurrLow, NextLow, Resolve, Find, Content, ListOK, LevelShouldSpill;
    var q, h := Prepared(j, |bs|), Half(j - 1);
    PreparedIs(j, |bs|);
    PreparedFacts(j, |bs|);
    RestsSinceSpill(bs, j);
    var now := bs[..q];
    var front := now[..q - 1];
    FrontValid(bs, q);
    FrontValid(now, q - 1);
    PendingIs(front, j, k);
    AfterOneMore(now);
    SpillsAt(j - 1, q);
    SpillMoves(After(front), q, now[q - 1], j);
    ContentFront(bs, q - 1, NextLow(j, q - h), CurrLow(j - 1, q - h), q - h - 1, k);
    assert bs[..q - 1] == front;
  }

  /** Until its second merge is prepared the curr of such a level is empty. */
  lemma CurrEmptyEarly(bs: seq<Batch>, j: nat, k: LedgerKey)
    requires ValidBatches(bs) && 0 < j < NUM_LEVELS && Prepared(j, |bs|) < 2 * Half(j - 1) && |bs| < 0x1_0000_0000
    ensures Find(After(bs)[j].curr, k).None?
  {
    hide LastIn, Find, After, CurrLow, Half;
    AfterOK(bs);
    assert LevelOK(After(bs)[j], j, bs);
    EarlyHigh(j, |bs|);
    NothingWritten(bs, 0, k);
  }

  lemma EarlyHigh(j: nat, t: nat)
    requires 0 < j < NUM_LEVELS && Prepared(j, t) < 2 * Half(j - 1)
    ensures CurrHigh(j, t) == 0
  {
    hide Half;
    var h := Half(j - 1);
    var q, r := Divided(t, h);
    if q >= 2 {
      MulAtMost(2, q, h);
    }
    MulAtMost(q, 1, h);
  }

  /** The curr of level 0 holds the latest writes of its ledgers. */
  lemma FirstCurrIs(bs: seq<Batch>, k: LedgerKey)
    requires ValidBatches(bs) && |bs| < 0x1_0000_0000
    ensures Find(After(bs)[0].curr, k) == LastIn(bs, CurrLow(0, |bs|), |bs|, k)
  {
    hide LastIn, Find, After, CurrLow, SnapLow;
    AfterOK(bs);
    assert LevelOK(After(bs)[0], 0, bs);
    NothingWritten(bs, |bs|, k);
  }

  /** The snap of a level is its curr from before its last spill. */
  lemma {:induction false} SnapIs(bs: seq<Batch>, j: nat)
    requires j < LAST && Half(j) <= |bs|
    ensures var p := Mask(|bs|, Half(j));
            0 < p <= |bs| && After(bs)[j].snap == After(bs[..p - 1])[j].curr
    decreases |bs|
  {
    hide After, Mask, AtSpill, LevelShouldSpill, Half, AddBatch;
    var t, front, p := |bs|, bs[..|bs| - 1], Mask(|bs|, Half(j));
    AfterOneMore(bs);
    SpillMoves(After(front), t, bs[t - 1], j);
    SpillsAt(j, t);
    if AtSpill(j, t) {
      StartsNow(t, j);
    } else {
      QuietMask(j, t);
      SnapIs(front, j);
      assert front[..p - 1] == bs[..p - 1];
    }
  }
}
