/** The levels of the bucket list as values: when they spill, and what a ledger close does to
    each of them. */
module BucketLevels {
  import opened Buckets
  import opened Division

  const NUM_LEVELS := 11

  function LevelSize(level: nat): nat
    requires level < NUM_LEVELS
  {
    if level == 0 then 4 else 4 * LevelSize(level - 1)
  }

  function LevelHalf(level: nat): nat
    requires level < NUM_LEVELS
  {
    LevelSize(level) / 2
  }

  /** Clears the bits of `v` below the power of two `m`: the largest multiple of `m` at most `v`. */
  function Mask(v: nat, m: nat): nat
    requires m > 0
  {
    v - v % m
  }

  lemma {:induction false} SizeBasics(level: nat)
    requires level < NUM_LEVELS
    ensures LevelSize(level) >= 4 && LevelSize(level) % 4 == 0
    ensures LevelHalf(level) >= 2 && LevelSize(level) == 2 * LevelHalf(level)
    ensures level > 0 ==> LevelHalf(level) == 4 * LevelHalf(level - 1)
  {
    if level > 0 {
      SizeBasics(level - 1);
      Quadruple(LevelSize(level), LevelSize(level - 1));
    }
  }

  lemma Quadruple(n: nat, m: nat)
    requires n == 4 * m
    ensures n % 4 == 0 && n / 2 == 2 * m && (m % 4 == 0 ==> n / 2 == 4 * (m / 2) && m == 2 * (m / 2))
  {
    DivisionUnique(4, m, 0);
    DivisionUnique(2, 2 * m, 0);
    if m % 4 == 0 {
      DivMod(m, 4);
      DivisionUnique(2, 2 * (m / 4), 0);
    }
  }

  /** Whether a level spills its `curr` into its `snap` at a ledger; the last level never does. */
  predicate LevelShouldSpill(ledger: nat, level: nat)
    requires level < NUM_LEVELS
  {
    SizeBasics(level);
    level != NUM_LEVELS - 1 &&
    (ledger == Mask(ledger, LevelHalf(level)) || ledger == Mask(ledger, LevelSize(level)))
  }

  /** A pending merge: none, known by hash only, or live. A live merge that is still running
      stands for the merge of its captured inputs. */
  datatype Future =
    | Clear
    | HashOutput(outputHash: nat)
    | HashInputs(currHash: nat, snapHash: nat, shadowHashes: seq<nat>)
    | LiveOutput(output: Bucket)
    | LiveInputs(curr: Bucket, snap: Bucket, shadows: seq<Bucket>)

  predicate IsLive(f: Future)
  {
    f.LiveInputs? || f.LiveOutput?
  }

  /** What a live merge resolves to. */
  function Resolve(f: Future): Bucket
    requires IsLive(f)
  {
    if f.LiveOutput? then f.output else Merge(f.curr, f.snap, f.shadows)
  }

  datatype Level = Level(curr: Bucket, snap: Bucket, next: Future)

  datatype Batch = Batch(live: seq<LedgerEntry>, dead: seq<LedgerKey>)

  function BatchBucket(b: Batch): Bucket
  {
    Fresh(b.live, b.dead)
  }

  function Commit(l: Level): Level
  {
    if IsLive(l.next) then l.(curr := Resolve(l.next), next := Clear) else l
  }

  function SnapLevel(l: Level): Level
  {
    Level([], l.curr, l.next)
  }

  /** The `curr` of a level that will itself be snapped when the merge commits is left out.
      The sum of ledger numbers is taken in 32 bits. */
  predicate SkipsCurr(i: nat, ledger: nat)
    requires i < NUM_LEVELS
  {
    i > 0 && LevelShouldSpill((ledger + LevelHalf(i - 1)) % 0x1_0000_0000, i)
  }

  function Prepare(l: Level, i: nat, ledger: nat, snap: Bucket, shadows: seq<Bucket>): Level
    requires i < NUM_LEVELS
  {
    l.(next := LiveInputs(if SkipsCurr(i, ledger) then [] else l.curr, snap, shadows))
  }

  /** The curr and snap buckets of the first `n` levels, newest first. */
  function Shadows(ls: seq<Level>, n: nat): seq<Bucket>
    requires n <= |ls|
  {
    if n == 0 then [] else Shadows(ls, n - 1) + [ls[n - 1].curr, ls[n - 1].snap]
  }

  /** A level after the step that snaps it. */
  function Snapped(ls: seq<Level>, ledger: nat, j: nat): Level
    requires |ls| == NUM_LEVELS && j < NUM_LEVELS
  {
    if LevelShouldSpill(ledger, j) then SnapLevel(ls[j]) else ls[j]
  }

  /** A level after a ledger close. */
  function NewLevel(ls: seq<Level>, ledger: nat, batch: Batch, j: nat): Level
    requires |ls| == NUM_LEVELS && j < NUM_LEVELS
  {
    var l := Snapped(ls, ledger, j);
    if j == 0 then Commit(Prepare(l, 0, ledger, BatchBucket(batch), []))
    else if LevelShouldSpill(ledger, j - 1) then
      Prepare(Commit(l), j, ledger, ls[j - 1].curr, Shadows(ls, j - 1))
    else l
  }

  function AddBatch(ls: seq<Level>, ledger: nat, batch: Batch): (r: seq<Level>)
    requires |ls| == NUM_LEVELS
    ensures |r| == NUM_LEVELS
  {
    seq(NUM_LEVELS, j requires 0 <= j < NUM_LEVELS => NewLevel(ls, ledger, batch, j))
  }

  function EmptyLevels(): seq<Level>
  {
    seq(NUM_LEVELS, _ => Level([], [], Clear))
  }

  ghost predicate ValidBatches(batches: seq<Batch>)
  {
    forall t :: 0 <= t < |batches| ==>
      DistinctIds(LiveEntries(batches[t].live)) && DistinctIds(DeadEntries(batches[t].dead))
  }

  /** The levels after consecutive ledger closes, from ledger 1 on. */
  function After(batches: seq<Batch>): seq<Level>
    ensures |After(batches)| == NUM_LEVELS
  {
    if |batches| == 0 then EmptyLevels()
    else AddBatch(After(batches[..|batches| - 1]), |batches|, batches[|batches| - 1])
  }

  // ---------------------------------------------------------------- spill arithmetic

  lemma MaskStep(t: nat, h: nat)
    requires h > 0 && t > 0
    ensures t % h == 0 ==> Mask(t, h) == t && t >= h && Mask(t - 1, h) == t - h
    ensures t % h != 0 ==> Mask(t, h) == Mask(t - 1, h)
  {
    var q, r := t / h, t % h;
    DivMod(t, h);
    if r == 0 {
      MulAtLeast(q, h);
      MulDifference(q, 1, h);
      DivisionUnique(h, q - 1, h - 1);
    } else {
      DivisionUnique(h, q, r - 1);
    }
  }

  lemma MultipleOfSmaller(t: nat, h: nat)
    requires h > 0 && t % (4 * h) == 0
    ensures t % h == 0
  {
    var q := t / (4 * h);
    DivMod(t, 4 * h);
    assert t == (4 * q) * h + 0;
    DivisionUnique(h, 4 * q, 0);
  }

  /** Half the size of a level, which is never zero. */
  function Half(level: nat): (h: nat)
    requires level < NUM_LEVELS
    ensures h >= 2
  {
    SizeBasics(level);
    LevelHalf(level)
  }

  /** A level other than the last spills exactly at the multiples of half its size. */
  lemma SpillIff(ledger: nat, level: nat)
    requires level < NUM_LEVELS
    ensures LevelShouldSpill(ledger, level) <==> level != NUM_LEVELS - 1 && ledger % Half(level) == 0
  {
    SizeBasics(level);
    var h, size := LevelHalf(level), LevelSize(level);
    hide LevelSize, LevelHalf;
    if ledger % size == 0 {
      MultipleOfHalf(ledger, h);
    }
  }

  function PowerOfFour(n: nat): (p: nat)
    ensures p > 0
  {
    if n == 0 then 1 else 4 * PowerOfFour(n - 1)
  }

  /** A level holds 4^(level+1) ledgers, half of them, 2 * 4^level, in each bucket. */
  lemma {:induction false} SizeIsPower(level: nat)
    requires level < NUM_LEVELS
    ensures LevelSize(level) == 4 * PowerOfFour(level) && Half(level) == 2 * PowerOfFour(level)
  {
    SizeBasics(level);
    if level > 0 {
      SizeIsPower(level - 1);
    }
  }

  /** Level 0 spills every other ledger, each further level a quarter as often, and the last never. */
  lemma SpillsEvery(ledger: nat, level: nat)
    requires level < NUM_LEVELS
    ensures LevelShouldSpill(ledger, level) <==> level < 10 && ledger % (2 * PowerOfFour(level)) == 0
  {
    hide LevelShouldSpill, Half, PowerOfFour, LevelSize;
    SpillIff(ledger, level);
    SizeIsPower(level);
  }

  lemma MultipleOfHalf(t: nat, h: nat)
    requires h > 0 && t % (2 * h) == 0
    ensures t % h == 0
  {
    var q := t / (2 * h);
    DivMod(t, 2 * h);
    assert t == (2 * q) * h + 0;
    DivisionUnique(h, 2 * q, 0);
  }

  /** The number of halves of a level in 2^32. */
  function Halves(level: nat): nat
    requires level < NUM_LEVELS
    decreases NUM_LEVELS - level
  {
    if level == NUM_LEVELS - 1 then 0x800 else 4 * Halves(level + 1)
  }

  lemma {:induction false} HalvesFill(level: nat)
    requires level < NUM_LEVELS
    ensures Half(level) * Halves(level) == 0x1_0000_0000 && Halves(level) > 1
  {
    if level > 0 {
      HalvesFill(level - 1);
      SizeBasics(level);
      Regroup(Half(level - 1), Half(level), Halves(level), Halves(level - 1));
    } else {
      assert Halves(5) == 0x20_0000;
      assert Halves(0) == 0x8000_0000;
    }
  }

  lemma Regroup(h: nat, g: nat, m: nat, n: nat)
    requires g == 4 * h && n == 4 * m
    ensures g * m == h * n
  {
  }

  lemma HalfDivides(level: nat)
    requires level < NUM_LEVELS
    ensures 0x1_0000_0000 % Half(level) == 0 && Half(level) < 0x1_0000_0000
  {
    hide Half, Halves;
    HalvesFill(level);
    var h, m := Half(level), Halves(level);
    DivisionUnique(h, m, 0);
    MulAtMost(2, m, h);
    assert m * h == h * m;
  }

  /** Wrapping a ledger number at 32 bits does not change whether a level spills at it. */
  lemma WrapKeepsMultiples(x: nat, level: nat)
    requires level < NUM_LEVELS && x < 0x2_0000_0000
    ensures (x % 0x1_0000_0000) % Half(level) == x % Half(level)
  {
    HalfDivides(level);
    var h := Half(level);
    hide Half;
    if x < 0x1_0000_0000 {
      WrapBelow(x);
    } else {
      WrapAbove(x);
      SameRemainder(x - 0x1_0000_0000, 0x1_0000_0000, h);
    }
  }

  lemma WrapBelow(x: nat)
    requires x < 0x1_0000_0000
    ensures x % 0x1_0000_0000 == x
  {
  }

  lemma WrapAbove(x: nat)
    requires 0x1_0000_0000 <= x < 0x2_0000_0000
    ensures x % 0x1_0000_0000 == x - 0x1_0000_0000
  {
  }

  lemma SameRemainder(y: nat, m: nat, h: nat)
    requires h > 0 && m % h == 0
    ensures (y + m) % h == y % h
  {
    DivMod(y, h);
    DivMod(m, h);
    var q, n := y / h, m / h;
    MulSum(q, n, h);
    DivisionUnique(h, q + n, y % h);
  }
}
