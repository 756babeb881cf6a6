/** Which ledgers each bucket of the list stands for, and why the list as a whole stands for
    the latest write of every key. */
module BucketTiling {
  import opened Options
  import opened Buckets
  import opened BucketLevels
  import opened Division

  const LAST := NUM_LEVELS - 1

  // ---------------------------------------------------------------- ledger ranges

  /** How far the newest ledger of a level's freshly taken snap lies behind the spill. */
  function Lag(i: nat): nat
    requires i < NUM_LEVELS
  {
    if i == 0 then 1 else Lag(i - 1) + 2 * LevelHalf(i - 1)
  }

  function Clamp(x: int): nat
  {
    if x < 0 then 0 else x
  }

  predicate AtSpill(i: nat, t: nat)
    requires i < NUM_LEVELS
  {
    t % Half(i) == 0
  }

  lemma SpillsAt(i: nat, t: nat)
    requires i < NUM_LEVELS
    ensures LevelShouldSpill(t, i) <==> i != LAST && AtSpill(i, t)
  {
    SpillIff(t, i);
  }

  lemma AtLeastHalf(i: nat, t: nat)
    requires i < NUM_LEVELS && AtSpill(i, t) && t > 0
    ensures t >= Half(i)
  {
    MaskStep(t, Half(i));
  }

  /** After ledger `t`, level `i` holds the ledgers in (CurrLow, CurrHigh] in its curr ... */
  function CurrLow(i: nat, t: nat): nat
    requires i < NUM_LEVELS
  {
    if i == LAST then 0 else Clamp(Mask(t, Half(i)) - Lag(i))
  }

  /** ... and the ledgers in (SnapLow, CurrLow] in its snap. */
  function SnapLow(i: nat, t: nat): nat
    requires i < NUM_LEVELS
  {
    if i == LAST then 0 else Clamp(Mask(t, Half(i)) - Half(i) - Lag(i))
  }

  function CurrHigh(i: nat, t: nat): nat
    requires i < NUM_LEVELS
  {
    if i == 0 then t else SnapLow(i - 1, t)
  }

  lemma {:induction false} LagBound(i: nat)
    requires i < NUM_LEVELS
    ensures Lag(i) < Half(i)
  {
    SizeBasics(i);
    if i > 0 {
      LagBound(i - 1);
      SizeBasics(i - 1);
    }
  }

  lemma MulFour(q: nat, p: nat, h: nat)
    ensures q * (4 * h) + p * h == (4 * q + p) * h
  {
  }

  lemma MaskNested(t: nat, h: nat)
    requires h > 0
    ensures Mask(t, 4 * h) <= Mask(t, h) <= Mask(t, 4 * h) + 3 * h
    ensures Mask(t, h) <= t
  {
    NestedRemainders(t, h, 4 * h);
  }

  lemma NestedRemainders(t: nat, h: nat, g: nat)
    requires h > 0 && g == 4 * h
    ensures t % h <= t % g <= t % h + 3 * h
  {
    var q, r := Divided(t, g);
    OuterRemainder(t, h, g, q, r);
  }

  lemma OuterRemainder(t: nat, h: nat, g: nat, q: nat, r: nat)
    requires h > 0 && g == 4 * h && t == q * g + r && r < g
    ensures t % h <= r <= t % h + 3 * h
  {
    var p, s := Divided(r, h);
    MaskPieces(t, h, q, r, p, s);
  }

  lemma MaskPieces(t: nat, h: nat, q: nat, r: nat, p: nat, s: nat)
    requires h > 0 && t == q * (4 * h) + r && r == p * h + s && s < h && r < 4 * h
    ensures t % h == s && r <= s + 3 * h && s <= r
  {
    MulFour(q, p, h);
    DivisionUnique(h, 4 * q + p, s);
    if p >= 4 {
      MulAtMost(4, p, h);
    } else {
      MulAtMost(p, 3, h);
    }
  }

  /** The ranges follow each other without a gap and, below the last level, none spans more
      than half its level. */
  lemma RangesTile(i: nat, t: nat)
    requires i < NUM_LEVELS
    ensures SnapLow(i, t) <= CurrLow(i, t) <= CurrHigh(i, t) <= t
    ensures i == LAST ==> SnapLow(i, t) == 0
    ensures i < LAST ==> SnapLow(i, t) == CurrHigh(i + 1, t)
    ensures i < LAST ==> CurrHigh(i, t) - CurrLow(i, t) <= LevelHalf(i) && CurrLow(i, t) - SnapLow(i, t) <= LevelHalf(i)
  {
    SizeBasics(i);
    LagBound(i);
    if i == 0 {
      MaskLow(t);
    } else {
      SizeBasics(i - 1);
      MaskNested(t, Half(i - 1));
      LagBound(i - 1);
      MaskIsMultiple(t, Half(i));
    }
  }

  lemma MaskLow(t: nat)
    ensures t - 1 <= Mask(t, 2) <= t
  {
  }

  lemma MaskIsMultiple(t: nat, h: nat)
    requires h > 0
    ensures Mask(t, h) == 0 || Mask(t, h) >= h
  {
    var q := t / h;
    assert t == q * h + t % h;
    if q >= 1 {
      MulAtLeast(q, h);
    }
  }

  lemma LastRanges(t: nat)
    ensures CurrLow(LAST, t) == 0 && SnapLow(LAST, t) == 0
  {
  }

  /** Between spills of the level below, the ranges of a level do not move. */
  lemma RangesRest(i: nat, t: nat)
    requires i < LAST && t > 0 && !AtSpill(i, t)
    ensures SnapLow(i, t) == SnapLow(i, t - 1) && CurrLow(i, t) == CurrLow(i, t - 1)
  {
    MaskStep(t, Half(i));
  }

  /** When a level spills, its snap takes over the range of its curr. */
  lemma RangesSpill(i: nat, t: nat)
    requires i < LAST && t > 0 && AtSpill(i, t)
    ensures SnapLow(i, t) == CurrLow(i, t - 1) && CurrLow(i, t) == CurrHigh(i, t - 1)
  {
    MaskStep(t, Half(i));
    if i > 0 {
      SizeBasics(i);
      MultipleOfSmaller(t, Half(i - 1));
      MaskStep(t, Half(i - 1));
    }
  }

  lemma SpillsBelow(i: nat, t: nat)
    requires 0 < i < NUM_LEVELS && AtSpill(i, t)
    ensures AtSpill(i - 1, t)
  {
    SizeBasics(i);
    MultipleOfSmaller(t, Half(i - 1));
  }

  // ---------------------------------------------------------------- coverage

  /** The latest write of a key in the ledgers (lo, hi]. */
  function LastIn(bs: seq<Batch>, lo: nat, hi: nat, k: LedgerKey): Option<BucketEntry>
    requires hi <= |bs|
    decreases hi
  {
    if hi <= lo then None
    else Override(LastIn(bs, lo, hi - 1, k), Find(BatchBucket(bs[hi - 1]), k))
  }

  lemma {:induction false} LastInSplit(bs: seq<Batch>, a: nat, b: nat, c: nat, k: LedgerKey)
    requires a <= b <= c <= |bs|
    ensures LastIn(bs, a, c, k) == Override(LastIn(bs, a, b, k), LastIn(bs, b, c, k))
    decreases c
  {
    hide Find, BatchBucket;
    if b < c {
      LastInSplit(bs, a, b, c - 1, k);
    }
  }

  lemma {:induction false} LastInPrefix(bs: seq<Batch>, x: Batch, lo: nat, hi: nat, k: LedgerKey)
    requires hi <= |bs|
    ensures LastIn(bs + [x], lo, hi, k) == LastIn(bs, lo, hi, k)
    decreases hi
  {
    if lo < hi {
      LastInPrefix(bs, x, lo, hi - 1, k);
    }
  }

  /** A bucket stands for the ledgers (lo, hi]: it holds only keys written there, and holds the
      latest such write of every key that was not written again since. */
  ghost predicate Covers(b: Bucket, bs: seq<Batch>, lo: nat, hi: nat)
    requires lo <= hi <= |bs|
  {
    && Sorted(b)
    && (forall k :: Find(b, k).Some? ==> LastIn(bs, lo, hi, k).Some?)
    && (forall k :: LastIn(bs, lo, hi, k).Some? && LastIn(bs, hi, |bs|, k).None? ==> Find(b, k) == LastIn(bs, lo, hi, k))
  }

  lemma EmptyCovers(bs: seq<Batch>, a: nat)
    requires a <= |bs|
    ensures Covers([], bs, a, a)
  {
  }

  lemma CoversExtends(b: Bucket, bs: seq<Batch>, x: Batch, lo: nat, hi: nat)
    requires lo <= hi <= |bs| && Covers(b, bs, lo, hi)
    ensures Covers(b, bs + [x], lo, hi)
  {
    var bs' := bs + [x];
    forall k ensures LastIn(bs', lo, hi, k) == LastIn(bs, lo, hi, k)
             ensures LastIn(bs', hi, |bs'|, k).None? ==> LastIn(bs, hi, |bs|, k).None?
    {
      LastInPrefix(bs, x, lo, hi, k);
      LastInPrefix(bs, x, hi, |bs|, k);
      LastInSplit(bs', hi, |bs|, |bs'|, k);
    }
  }

  lemma BatchCovers(bs: seq<Batch>, x: Batch)
    requires ValidBatches([x])
    ensures Covers(BatchBucket(x), bs + [x], |bs|, |bs| + 1)
  {
    var bs' := bs + [x];
    assert x == [x][0];
    forall k ensures LastIn(bs', |bs|, |bs| + 1, k) == Find(BatchBucket(x), k)
    {
      FreshCorrect(x.live, x.dead, k);
      assert bs'[|bs|] == x;
      assert LastIn(bs', |bs|, |bs|, k).None?;
    }
    FreshCorrect(x.live, x.dead, AccountKey(0));
  }

  /** Every key of a shadow has been written after `c`. */
  ghost predicate ShadowsAfter(shadows: seq<Bucket>, bs: seq<Batch>, c: nat)
    requires c <= |bs|
  {
    forall s, k :: 0 <= s < |shadows| && Find(shadows[s], k).Some? ==> LastIn(bs, c, |bs|, k).Some?
  }

  /** Merging neighbouring ranges covers their union; what the shadows drop was written again later. */
  lemma MergeCovers(prior: Bucket, recent: Bucket, shadows: seq<Bucket>, bs: seq<Batch>, a: nat, b: nat, c: nat)
    requires a <= b <= c <= |bs|
    requires Covers(prior, bs, a, b) && Covers(recent, bs, b, c) && ShadowsAfter(shadows, bs, c)
    ensures Covers(Merge(prior, recent, shadows), bs, a, c)
  {
    var m := Merge(prior, recent, shadows);
    MergeSorted(prior, recent, shadows);
    forall k
      ensures Find(m, k).Some? ==> LastIn(bs, a, c, k).Some?
      ensures LastIn(bs, a, c, k).Some? && LastIn(bs, c, |bs|, k).None? ==> Find(m, k) == LastIn(bs, a, c, k)
    {
      FindMerge(prior, recent, shadows, k);
      LastInSplit(bs, a, b, c, k);
      LastInSplit(bs, b, c, |bs|, k);
      NotShadowed(shadows, bs, c, k);
    }
  }

  lemma NotShadowed(shadows: seq<Bucket>, bs: seq<Batch>, c: nat, k: LedgerKey)
    requires c <= |bs| && ShadowsAfter(shadows, bs, c)
    ensures LastIn(bs, c, |bs|, k).None? ==> !Shadowed(k, shadows)
  {
    forall s | 0 <= s < |shadows| && Contains(shadows[s], k)
      ensures LastIn(bs, c, |bs|, k).Some?
    {
      FindIff(shadows[s], k);
    }
  }

  // ---------------------------------------------------------------- the list

  /** The pending merge of level `i` leaves out the level's curr. */
  ghost predicate Skipping(i: nat, t: nat)
    requires 0 < i < NUM_LEVELS
  {
    i != LAST && AtSpill(i, Mask(t, Half(i - 1)) + Half(i - 1))
  }

  ghost function NextLow(i: nat, t: nat): nat
    requires 0 < i < NUM_LEVELS
  {
    if Skipping(i, t) then CurrHigh(i, t) else CurrLow(i, t)
  }

  ghost predicate NextOK(f: Future, i: nat, bs: seq<Batch>)
    requires i < NUM_LEVELS
  {
    if i == 0 || |bs| < Half(i - 1) then f.Clear?
    else
      && f.LiveInputs?
      && NextLow(i, |bs|) <= CurrLow(i - 1, |bs|) <= |bs|
      && Covers(Resolve(f), bs, NextLow(i, |bs|), CurrLow(i - 1, |bs|))
  }

  ghost predicate LevelOK(l: Level, i: nat, bs: seq<Batch>)
    requires i < NUM_LEVELS
  {
    var t := |bs|;
    && SnapLow(i, t) <= CurrLow(i, t) <= CurrHigh(i, t) <= t
    && Covers(l.curr, bs, CurrLow(i, t), CurrHigh(i, t))
    && Covers(l.snap, bs, SnapLow(i, t), CurrLow(i, t))
    && NextOK(l.next, i, bs)
  }

  ghost predicate ListOK(ls: seq<Level>, bs: seq<Batch>)
  {
    |ls| == NUM_LEVELS && forall i :: 0 <= i < NUM_LEVELS ==> LevelOK(ls[i], i, bs)
  }

  lemma EmptyListOK()
    ensures ListOK(EmptyLevels(), [])
  {
    forall i | 0 <= i < NUM_LEVELS ensures LevelOK(EmptyLevels()[i], i, []) {
      RangesTile(i, 0);
      EmptyCovers([], 0);
    }
  }

  lemma {:induction false} CurrHighAbove(i: nat, n: nat, t: nat)
    requires i <= n < NUM_LEVELS
    ensures CurrHigh(n, t) <= CurrHigh(i, t)
    ensures i < n ==> CurrHigh(n, t) <= SnapLow(i, t)
    decreases n - i
  {
    hide CurrLow, SnapLow, CurrHigh;
    if i < n {
      RangesTile(i, t);
      CurrHighAbove(i + 1, n, t);
    }
  }

  lemma LateKey(b: Bucket, bs: seq<Batch>, lo: nat, hi: nat, c: nat, k: LedgerKey)
    requires c <= lo <= hi <= |bs| && Covers(b, bs, lo, hi) && Find(b, k).Some?
    ensures LastIn(bs, c, |bs|, k).Some?
  {
    LastInSplit(bs, c, lo, |bs|, k);
    LastInSplit(bs, lo, hi, |bs|, k);
  }

  /** The buckets of the first `n` levels hold keys written after everything in level `n`. */
  lemma {:induction false} ShadowsAreLate(ls: seq<Level>, bs: seq<Batch>, n: nat, c: nat)
    requires ListOK(ls, bs) && n < NUM_LEVELS && c <= CurrHigh(n, |bs|) <= |bs|
    ensures ShadowsAfter(Shadows(ls, n), bs, c)
  {
    hide CurrLow, SnapLow, CurrHigh, NextOK, Covers, LastIn, Find;
    if n > 0 {
      var l := ls[n - 1];
      CurrHighAbove(n - 1, n, |bs|);
      assert LevelOK(l, n - 1, bs);
      ShadowsAreLate(ls, bs, n - 1, c);
      var sh := Shadows(ls, n - 1);
      forall s, k | 0 <= s < |Shadows(ls, n)| && Find(Shadows(ls, n)[s], k).Some?
        ensures LastIn(bs, c, |bs|, k).Some?
      {
        if s == |sh| {
          LateKey(l.curr, bs, CurrLow(n - 1, |bs|), CurrHigh(n - 1, |bs|), c, k);
        } else if s == |sh| + 1 {
          LateKey(l.snap, bs, SnapLow(n - 1, |bs|), CurrLow(n - 1, |bs|), c, k);
        }
      }
    }
  }

  lemma ShadowsExtend(shadows: seq<Bucket>, bs: seq<Batch>, x: Batch, c: nat)
    requires c <= |bs| && ShadowsAfter(shadows, bs, c)
    ensures ShadowsAfter(shadows, bs + [x], c)
  {
    forall s, k | 0 <= s < |shadows| && Find(shadows[s], k).Some?
      ensures LastIn(bs + [x], c, |bs + [x]|, k).Some?
    {
      LastInPrefix(bs, x, c, |bs|, k);
      LastInSplit(bs + [x], c, |bs|, |bs| + 1, k);
    }
  }

  // ---------------------------------------------------------------- one ledger close

  lemma SkipIff(i: nat, t: nat)
    requires 0 < i < NUM_LEVELS && t < 0x1_0000_0000 && AtSpill(i - 1, t)
    ensures SkipsCurr(i, t) <==> Skipping(i, t)
  {
    hide LevelHalf, LevelShouldSpill, Mask, Half, AtSpill;
    HalfIs(i - 1);
    MaskAtSpill(i - 1, t);
    SpillsAt(i, (t + Half(i - 1)) % 0x1_0000_0000);
    WrapAt(i, t + Half(i - 1));
  }

  lemma HalfIs(i: nat)
    requires i < NUM_LEVELS
    ensures Half(i) == LevelHalf(i) < 0x1_0000_0000
  {
    HalfDivides(i);
  }

  lemma MaskAtSpill(i: nat, t: nat)
    requires i < NUM_LEVELS && AtSpill(i, t)
    ensures Mask(t, Half(i)) == t
  {
    hide Half;
  }

  lemma WrapAt(i: nat, x: nat)
    requires i < NUM_LEVELS && x < 0x2_0000_0000
    ensures AtSpill(i, x % 0x1_0000_0000) == AtSpill(i, x)
  {
    WrapKeepsMultiples(x, i);
  }

  lemma QuietRanges(j: nat, t: nat)
    requires 0 < j < NUM_LEVELS && t > 0 && !AtSpill(j - 1, t)
    ensures CurrHigh(j, t) == CurrHigh(j, t - 1) && CurrLow(j, t) == CurrLow(j, t - 1) && SnapLow(j, t) == SnapLow(j, t - 1)
    ensures CurrLow(j - 1, t) == CurrLow(j - 1, t - 1) && NextLow(j, t) == NextLow(j, t - 1)
    ensures t < Half(j - 1) <==> t - 1 < Half(j - 1)
    ensures !LevelShouldSpill(t, j) && !LevelShouldSpill(t, j - 1)
  {
    hide AtSpill, Lag, Half, LevelShouldSpill, Clamp;
    SpillsAt(j - 1, t);
    SpillsAt(j, t);
    if AtSpill(j, t) {
      SpillsBelow(j, t);
    }
    RangesRest(j - 1, t);
    if j < LAST {
      RangesRest(j, t);
    }
    QuietMask(j - 1, t);
  }

  lemma SelfRemainder(h: nat)
    requires h > 0
    ensures h % h == 0
  {
    DivisionUnique(h, 1, 0);
  }

  lemma QuietMask(i: nat, t: nat)
    requires i < NUM_LEVELS && t > 0 && !AtSpill(i, t)
    ensures Mask(t, Half(i)) == Mask(t - 1, Half(i)) && t != Half(i)
  {
    hide Half, Mask;
    SelfRemainder(Half(i));
    MaskStep(t, Half(i));
  }

  /** A level whose neighbour below does not spill is left alone. */
  lemma QuietLevel(ls: seq<Level>, bs: seq<Batch>, x: Batch, j: nat)
    requires ListOK(ls, bs) && 0 < j < NUM_LEVELS
    requires !AtSpill(j - 1, |bs| + 1)
    ensures NewLevel(ls, |bs| + 1, x, j) == ls[j] && LevelOK(ls[j], j, bs + [x])
  {
    hide Covers, CurrLow, SnapLow, CurrHigh, NextLow, LevelShouldSpill, Half, Resolve, AtSpill;
    var l, t := ls[j], |bs| + 1;
    assert LevelOK(l, j, bs);
    QuietRanges(j, t);
    CoversExtends(l.curr, bs, x, CurrLow(j, |bs|), CurrHigh(j, |bs|));
    CoversExtends(l.snap, bs, x, SnapLow(j, |bs|), CurrLow(j, |bs|));
    if |bs| >= Half(j - 1) {
      CoversExtends(Resolve(l.next), bs, x, NextLow(j, |bs|), CurrLow(j - 1, |bs|));
    }
  }

  lemma SnappedCurr(ls: seq<Level>, bs: seq<Batch>, j: nat)
    requires ListOK(ls, bs) && j < NUM_LEVELS
    ensures Snapped(ls, |bs| + 1, j).next == ls[j].next
    ensures j != LAST && AtSpill(j, |bs| + 1) ==>
              Snapped(ls, |bs| + 1, j).curr == [] && CurrLow(j, |bs| + 1) == CurrHigh(j, |bs|)
    ensures j == LAST || !AtSpill(j, |bs| + 1) ==>
              Snapped(ls, |bs| + 1, j) == ls[j] && CurrLow(j, |bs| + 1) == CurrLow(j, |bs|)
  {
    hide AtSpill, LevelShouldSpill, CurrLow, SnapLow, CurrHigh, LevelOK;
    var t := |bs| + 1;
    SpillsAt(j, t);
    if j == LAST {
      LastRanges(t);
      LastRanges(|bs|);
    } else if AtSpill(j, t) {
      RangesSpill(j, t);
    } else {
      RangesRest(j, t);
    }
  }

  /** What a level holds in its snap after the step that snaps it. */
  lemma SnappedCovers(ls: seq<Level>, bs: seq<Batch>, x: Batch, j: nat)
    requires ListOK(ls, bs) && j < NUM_LEVELS
    ensures var l, t := Snapped(ls, |bs| + 1, j), |bs| + 1;
            && SnapLow(j, t) <= CurrLow(j, t) <= t
            && Covers(l.snap, bs + [x], SnapLow(j, t), CurrLow(j, t))
  {
    hide Covers;
    var t := |bs| + 1;
    hide AtSpill, LevelShouldSpill, CurrLow, SnapLow, CurrHigh;
    assert LevelOK(ls[j], j, bs);
    SpillsAt(j, t);
    RangesTile(j, t);
    if j != LAST && AtSpill(j, t) {
      RangesSpill(j, t);
      CoversExtends(ls[j].curr, bs, x, CurrLow(j, |bs|), CurrHigh(j, |bs|));
    } else {
      if j != LAST {
        RangesRest(j, t);
      } else {
        LastRanges(t);
        LastRanges(|bs|);
      }
      CoversExtends(ls[j].snap, bs, x, SnapLow(j, |bs|), CurrLow(j, |bs|));
    }
  }

  /** Level 0 takes in the batch. */
  lemma FirstLevel(ls: seq<Level>, bs: seq<Batch>, x: Batch)
    requires ListOK(ls, bs) && ValidBatches([x])
    ensures LevelOK(NewLevel(ls, |bs| + 1, x, 0), 0, bs + [x])
  {
    hide Covers;
    var t, bs' := |bs| + 1, bs + [x];
    assert LevelOK(ls[0], 0, bs);
    SnappedCovers(ls, bs, x, 0);
    SnappedCurr(ls, bs, 0);
    var l := Snapped(ls, t, 0);
    RangesTile(0, t);
    BatchCovers(bs, x);
    assert Covers(l.curr, bs', CurrLow(0, t), |bs|) && CurrLow(0, t) <= |bs| by {
      if AtSpill(0, t) {
        EmptyCovers(bs', |bs|);
      } else {
        CoversExtends(ls[0].curr, bs, x, CurrLow(0, |bs|), CurrHigh(0, |bs|));
      }
    }
    NoShadows(bs', t);
    MergeCovers(l.curr, BatchBucket(x), [], bs', CurrLow(0, t), |bs|, t);
  }

  lemma NoShadows(bs: seq<Batch>, c: nat)
    requires c <= |bs|
    ensures ShadowsAfter([], bs, c)
  {
  }

  /** Before the first spill from below, the ranges of a level are empty. */
  lemma EarlyRanges(j: nat, t: nat)
    requires 0 < j < NUM_LEVELS && 0 < t <= Half(j - 1)
    ensures CurrHigh(j, t) == 0 && CurrHigh(j, t - 1) == 0
  {
    LagBound(j - 1);
    MaskAtMost(t, Half(j - 1));
    MaskAtMost(t - 1, Half(j - 1));
  }

  lemma MaskAtMost(t: nat, h: nat)
    requires h > 0
    ensures Mask(t, h) <= t
  {
  }

  /** The pending merge of a level stands for what the level's curr stands for once it is committed. */
  lemma CommitRange(j: nat, t: nat)
    requires 0 < j < NUM_LEVELS && t > 0 && AtSpill(j - 1, t)
    ensures NextLow(j, t - 1) == if j != LAST && AtSpill(j, t) then CurrHigh(j, t - 1) else CurrLow(j, t - 1)
  {
    MaskStep(t, Half(j - 1));
  }

  /** The curr of a level once its pending merge is committed; the batch has no part in it. */
  lemma CommitStandsFor(ls: seq<Level>, bs: seq<Batch>, j: nat)
    requires ListOK(ls, bs) && 0 < j < NUM_LEVELS && AtSpill(j - 1, |bs| + 1)
    ensures var t := |bs| + 1;
            && CurrLow(j, t) <= CurrHigh(j, t) <= |bs|
            && Covers(Commit(Snapped(ls, t, j)).curr, bs, CurrLow(j, t), CurrHigh(j, t))
  {
    hide Covers, Merge, AtSpill, CurrLow, SnapLow, NextLow, Half, Snapped, Resolve;
    var t := |bs| + 1;
    assert LevelOK(ls[j], j, bs);
    RangesSpill(j - 1, t);
    SnappedCurr(ls, bs, j);
    CommitRange(j, t);
    RangesTile(j, t);
    RangesTile(j - 1, |bs|);
    RangesTile(j, |bs|);
    if |bs| < Half(j - 1) {
      EarlyRanges(j, t);
      EmptyCovers(bs, 0);
    }
  }

  lemma CommitCovers(ls: seq<Level>, bs: seq<Batch>, x: Batch, j: nat)
    requires ListOK(ls, bs) && 0 < j < NUM_LEVELS && AtSpill(j - 1, |bs| + 1)
    ensures var t := |bs| + 1;
            && CurrLow(j, t) <= CurrHigh(j, t) <= t
            && Covers(Commit(Snapped(ls, t, j)).curr, bs + [x], CurrLow(j, t), CurrHigh(j, t))
            && Commit(Snapped(ls, t, j)).snap == Snapped(ls, t, j).snap
  {
    hide Covers, Snapped, CurrLow, CurrHigh, Resolve, AtSpill, LevelOK;
    var t := |bs| + 1;
    CommitStandsFor(ls, bs, j);
    CoversExtends(Commit(Snapped(ls, t, j)).curr, bs, x, CurrLow(j, t), CurrHigh(j, t));
  }

  /** The merge prepared for a level covers its curr, unless skipped, and the new snap below it. */
  lemma PreparedCovers(ls: seq<Level>, bs: seq<Batch>, x: Batch, j: nat, curr: Bucket)
    requires ListOK(ls, bs) && 0 < j < NUM_LEVELS && AtSpill(j - 1, |bs| + 1) && |bs| + 1 < 0x1_0000_0000
    requires CurrLow(j, |bs| + 1) <= CurrHigh(j, |bs| + 1) <= |bs| + 1
    requires Covers(curr, bs + [x], CurrLow(j, |bs| + 1), CurrHigh(j, |bs| + 1))
    ensures var t := |bs| + 1;
            && NextLow(j, t) <= CurrLow(j - 1, t) <= t
            && Covers(Merge(if SkipsCurr(j, t) then [] else curr, ls[j - 1].curr, Shadows(ls, j - 1)),
                      bs + [x], NextLow(j, t), CurrLow(j - 1, t))
  {
    hide Covers, Shadows, CurrLow, SnapLow, Half, Merge, SkipsCurr, Skipping, AtSpill;
    var t, bs', recent := |bs| + 1, bs + [x], ls[j - 1].curr;
    RangesSpill(j - 1, t);
    RangesTile(j - 1, t);
    assert LevelOK(ls[j - 1], j - 1, bs);
    CoversExtends(recent, bs, x, CurrLow(j - 1, |bs|), CurrHigh(j - 1, |bs|));
    ShadowsAreLate(ls, bs, j - 1, CurrHigh(j - 1, |bs|));
    ShadowsExtend(Shadows(ls, j - 1), bs, x, CurrHigh(j - 1, |bs|));
    SkipIff(j, t);
    EmptyCovers(bs', CurrHigh(j, t));
    MergeCovers(if SkipsCurr(j, t) then [] else curr, recent, Shadows(ls, j - 1), bs',
                NextLow(j, t), CurrHigh(j, t), CurrLow(j - 1, t));
  }

  /** A level whose neighbour below spills: commit, then prepare the next merge. */
  lemma SpilledInto(ls: seq<Level>, bs: seq<Batch>, x: Batch, j: nat)
    requires ListOK(ls, bs) && 0 < j < NUM_LEVELS && AtSpill(j - 1, |bs| + 1) && |bs| + 1 < 0x1_0000_0000
    ensures LevelOK(NewLevel(ls, |bs| + 1, x, j), j, bs + [x])
  {
    hide Covers, Shadows, CurrLow, SnapLow, CurrHigh, NextLow, Merge, SkipsCurr, Commit, Snapped, AtSpill, LevelShouldSpill, Half;
    var t := |bs| + 1;
    SpillsAt(j - 1, t);
    AtLeastHalf(j - 1, t);
    SnappedCovers(ls, bs, x, j);
    CommitCovers(ls, bs, x, j);
    PreparedCovers(ls, bs, x, j, Commit(Snapped(ls, t, j)).curr);
    RangesTile(j, t);
  }

  /** A ledger close keeps the tiling and the coverage of every bucket. */
  lemma AddBatchKeeps(ls: seq<Level>, bs: seq<Batch>, x: Batch)
    requires ListOK(ls, bs) && ValidBatches([x]) && |bs| + 1 < 0x1_0000_0000
    ensures ListOK(AddBatch(ls, |bs| + 1, x), bs + [x])
  {
    hide LevelOK, NewLevel, AtSpill;
    var ls' := AddBatch(ls, |bs| + 1, x);
    forall j | 0 <= j < NUM_LEVELS ensures LevelOK(ls'[j], j, bs + [x]) {
      if j == 0 {
        FirstLevel(ls, bs, x);
      } else if AtSpill(j - 1, |bs| + 1) {
        SpilledInto(ls, bs, x, j);
      } else {
        QuietLevel(ls, bs, x, j);
      }
    }
  }

  /** After any run of consecutive ledgers the buckets tile the ledgers closed so far. */
  lemma {:induction false} AfterOK(bs: seq<Batch>)
    requires ValidBatches(bs) && |bs| < 0x1_0000_0000
    ensures ListOK(After(bs), bs)
  {
    if |bs| == 0 {
      EmptyListOK();
      assert bs == [];
    } else {
      var front, x := bs[..|bs| - 1], bs[|bs| - 1];
      AfterOK(front);
      AddBatchKeeps(After(front), front, x);
      assert front + [x] == bs;
    }
  }
}
