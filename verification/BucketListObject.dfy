/** The bucket list as objects: levels that are snapped, committed and prepared in place,
    the countdown loop of a ledger close, and saving and restoring the whole list. */
module BucketListObject {
  import opened Options
  import opened Buckets
  import L = BucketLevels
  import opened FutureBuckets
  import R = BucketRestart
  import C = BucketContents

  class BucketLevel {
    const level: nat
    const hash: Bucket -> Hash
    var curr: Bucket
    var snap: Bucket
    var next: FutureBucket

    ghost predicate Valid()
      reads this, next
    {
      level < L.NUM_LEVELS && next.Valid() && next.hash == hash
    }

    function State(): L.Level
      requires Valid()
      reads this, next
    {
      L.Level(curr, snap, next.View())
    }

    constructor (level: nat, hash: Bucket -> Hash)
      requires level < L.NUM_LEVELS
      ensures Valid() && fresh(next) && this.level == level && this.hash == hash
      ensures State() == L.Level([], [], L.Clear)
    {
      this.level := level;
      this.hash := hash;
      curr, snap := [], [];
      next := new FutureBucket(hash);
    }

    method SetCurr(b: Bucket)
      requires Valid()
      modifies this, next
      ensures Valid() && next == old(next) && State() == L.Level(b, old(snap), L.Clear)
    {
      next.Reset();
      curr := b;
    }

    method Commit()
      requires Valid()
      modifies this, next
      ensures Valid() && next == old(next) && State() == L.Commit(old(State()))
    {
      if L.IsLive(next.View()) {
        var b := next.Resolve();
        SetCurr(b);
      }
    }

    method Prepare(ledger: nat, snapBelow: Bucket, shadows: seq<Bucket>)
      requires Valid() && !next.View().LiveInputs?
      modifies this
      ensures Valid() && fresh(next) && State() == L.Prepare(old(State()), level, ledger, snapBelow, shadows)
    {
      var c := curr;
      if level > 0 && L.LevelShouldSpill((ledger + L.LevelHalf(level - 1)) % 0x1_0000_0000, level) {
        c := [];
      }
      next := new FutureBucket.Merging(hash, c, snapBelow, shadows);
    }

    method Snap() returns (s: Bucket)
      requires Valid()
      modifies this
      ensures Valid() && next == old(next) && s == old(curr) && State() == L.SnapLevel(old(State()))
    {
      snap := curr;
      curr := [];
      s := snap;
    }
  }

  class BucketList {
    const levels: seq<BucketLevel>
    const hash: Bucket -> Hash

    /** The levels and their merges are separate objects. */
    ghost predicate Valid()
      reads this, levels, set l | l in levels :: l.next
    {
      && |levels| == L.NUM_LEVELS
      && (forall i :: 0 <= i < |levels| ==> levels[i].Valid() && levels[i].level == i && levels[i].hash == hash)
      && (forall i, j :: 0 <= i < j < |levels| ==> levels[i] != levels[j] && levels[i].next != levels[j].next)
    }

    function State(): seq<L.Level>
      requires Valid()
      reads this, levels, set l | l in levels :: l.next
    {
      seq(|levels|, i requires 0 <= i < |levels| && levels[i].Valid() reads levels, set l | l in levels :: l.next =>
            levels[i].State())
    }

    constructor (hash: Bucket -> Hash)
      ensures Valid() && fresh(levels) && (forall l :: l in levels ==> fresh(l.next)) && this.hash == hash
      ensures State() == L.EmptyLevels()
    {
      var ls: seq<BucketLevel> := [];
      for i := 0 to L.NUM_LEVELS
        invariant |ls| == i && fresh(ls)
        invariant forall j :: 0 <= j < i ==> fresh(ls[j].next) && ls[j].Valid() && ls[j].level == j && ls[j].hash == hash
        invariant forall j :: 0 <= j < i ==> ls[j].State() == L.Level([], [], L.Clear)
        invariant forall j, k :: 0 <= j < k < i ==> ls[j] != ls[k] && ls[j].next != ls[k].next
      {
        var l := new BucketLevel(i, hash);
        ls := ls + [l];
      }
      this.hash := hash;
      levels := ls;
    }

    /** One spill: snap the level below, commit this level and prepare its next merge. */
    method SpillInto(i: nat, ledger: nat, shadows: seq<Bucket>)
      requires Valid() && 0 < i < L.NUM_LEVELS
      modifies levels[i - 1], levels[i], levels[i].next
      ensures Valid() && fresh(levels[i].next) && levels[i - 1].next == old(levels[i - 1].next)
      ensures levels[i - 1].State() == L.SnapLevel(old(levels[i - 1].State()))
      ensures levels[i].State() ==
              L.Prepare(L.Commit(old(levels[i].State())), i, ledger, old(levels[i - 1].curr), shadows)
      ensures forall j :: 0 <= j < L.NUM_LEVELS && j != i && j != i - 1 ==>
                levels[j].next == old(levels[j].next) && levels[j].State() == old(levels[j].State())
    {
      hide L.Prepare, L.Resolve;
      var below, here := levels[i - 1], levels[i];
      var snap := below.Snap();
      here.Commit();
      here.Prepare(ledger, snap, shadows);
    }

    ghost function Merges(): set<FutureBucket>
      reads this, levels
    {
      set l | l in levels :: l.next
    }

    /** The countdown has dealt with the levels above `i`; level `i` has been snapped if due. */
    ghost predicate SpilledTo(ls: seq<L.Level>, ledger: nat, i: nat)
      requires Valid() && |ls| == L.NUM_LEVELS && i < L.NUM_LEVELS
      reads this, levels, set l | l in levels :: l.next
    {
      && (forall j :: 0 <= j < i ==> levels[j].State() == ls[j])
      && levels[i].State() == L.Snapped(ls, ledger, i)
      && (forall j :: i < j < L.NUM_LEVELS ==> levels[j].State() == Spilled(ls, ledger, j))
    }

    /** One turn of the countdown. */
    method SpillTurn(i: nat, ledger: nat, shadows: seq<Bucket>, ghost ls: seq<L.Level>)
      requires Valid() && 0 < i < L.NUM_LEVELS && |ls| == L.NUM_LEVELS
      requires shadows == L.Shadows(ls, i - 1) && SpilledTo(ls, ledger, i)
      modifies levels[i - 1], levels[i], levels[i].next
      ensures Valid() && SpilledTo(ls, ledger, i - 1)
      ensures levels[i].next == old(levels[i].next) || fresh(levels[i].next)
      ensures forall j :: 0 <= j < L.NUM_LEVELS && j != i ==> levels[j].next == old(levels[j].next)
    {
      hide L.Prepare, L.Commit, L.Shadows, L.LevelShouldSpill, L.SnapLevel;
      if L.LevelShouldSpill(ledger, i - 1) {
        SpillInto(i, ledger, shadows);
      }
    }

    /** The countdown over the levels: a curr is moved out of the way before anything is added to it. */
    method Spill(ledger: nat)
      requires Valid()
      modifies levels, Merges()
      ensures Valid() && forall j :: 0 <= j < L.NUM_LEVELS ==> levels[j].next == old(levels[j].next) || fresh(levels[j].next)
      ensures SpilledTo(old(State()), ledger, 0)
    {
      hide L.Shadows, L.LevelShouldSpill, L.SnapLevel, Spilled;
      ghost var ls := State();
      var shadows := AllShadows();
      ShadowsShorten(ls, L.NUM_LEVELS);
      LastNeverSpills(ledger);
      CountDown(ledger, shadows[..|shadows| - 2], ls);
    }

    method CountDown(ledger: nat, top: seq<Bucket>, ghost ls: seq<L.Level>)
      requires Valid() && |ls| == L.NUM_LEVELS
      requires top == L.Shadows(ls, L.NUM_LEVELS - 1) && SpilledTo(ls, ledger, L.NUM_LEVELS - 1)
      modifies levels, Merges()
      ensures Valid() && forall j :: 0 <= j < L.NUM_LEVELS ==> levels[j].next == old(levels[j].next) || fresh(levels[j].next)
      ensures SpilledTo(ls, ledger, 0)
    {
      hide L.Shadows, L.LevelShouldSpill, L.SnapLevel, L.Snapped, Spilled, SpilledTo;
      var i, shadows := L.NUM_LEVELS - 1, top;
      while i > 0
        invariant Valid() && 0 <= i < L.NUM_LEVELS && shadows == L.Shadows(ls, i) && SpilledTo(ls, ledger, i)
        invariant forall j :: 0 <= j <= i ==> levels[j].next == old(levels[j].next)
        invariant forall j :: 0 <= j < L.NUM_LEVELS ==> levels[j].next == old(levels[j].next) || fresh(levels[j].next)
      {
        ShadowsShorten(ls, i);
        shadows := shadows[..|shadows| - 2];
        SpillTurn(i, ledger, shadows, ls);
        i := i - 1;
      }
    }

    /** A ledger close. */
    method AddBatch(ledger: nat, batch: L.Batch)
      requires Valid() && 0 < ledger < 0x1_0000_0000
      requires levels[0].State().next.Clear?
      modifies levels, Merges()
      ensures Valid() && forall j :: 0 <= j < L.NUM_LEVELS ==> levels[j].next == old(levels[j].next) || fresh(levels[j].next)
      ensures State() == L.AddBatch(old(State()), ledger, batch)
      ensures old(C.SortedLevels(State())) ==> C.ShadowsDropped(old(State()), ledger, State())
    {
      hide L.Prepare, L.Commit, L.Shadows, L.BatchBucket, L.LevelShouldSpill, C.SortedLevels, C.ShadowsDropped;
      ghost var was := State();
      if C.SortedLevels(was) {
        C.CloseDropsShadowed(was, ledger, batch);
      }
      Spill(ledger);
      TakeBatch(ledger, batch);
    }

    /** Level 0 takes the batch in at once. */
    method TakeBatch(ledger: nat, batch: L.Batch)
      requires Valid() && levels[0].State().next.Clear?
      modifies levels[0], levels[0].next
      ensures Valid() && fresh(levels[0].next)
      ensures levels[0].State() == L.Commit(L.Prepare(old(levels[0].State()), 0, ledger, L.BatchBucket(batch), []))
      ensures forall j :: 0 < j < L.NUM_LEVELS ==>
                levels[j].next == old(levels[j].next) && levels[j].State() == old(levels[j].State())
    {
      hide L.Prepare, L.Resolve, L.BatchBucket;
      levels[0].Prepare(ledger, L.BatchBucket(batch), []);
      levels[0].Commit();
    }

    /** Saves the list by hashes. Copies of the merges that are ready are resolved first; the list
        itself is left alone. */
    method Save(ready: seq<bool>) returns (saved: seq<R.SavedLevel>)
      requires Valid() && |ready| == L.NUM_LEVELS
      ensures saved == R.SaveAll(hash, State(), ready)
    {
      hide L.Resolve, Hashes;
      saved := [];
      for i := 0 to L.NUM_LEVELS
        invariant |saved| == i
        invariant forall j :: 0 <= j < i ==> saved[j] == R.SaveLevel(hash, levels[j].State(), ready[j])
      {
        var copy := new FutureBucket.Copy(levels[i].next);
        if copy.View().LiveInputs? && ready[i] {
          var _ := copy.Resolve();
        }
        var f := copy.Save();
        saved := saved + [R.SavedLevel(hash(levels[i].curr), hash(levels[i].snap), f)];
      }
    }

    /** Puts the saved curr, snap and merge of one level in place; the merge stays hash-only. */
    method AssumeLevel(i: nat, bm: BucketManager, saved: R.SavedLevel) returns (ok: bool)
      requires Valid() && bm.Valid() && i < L.NUM_LEVELS && !L.IsLive(saved.next)
      modifies levels[i], levels[i].next, bm
      ensures bm.Valid() && (ok <==> Fetch(bm.files, saved.curr).Some? && Fetch(bm.files, saved.snap).Some?)
      ensures Valid() && levels[i].next == old(levels[i].next)
      ensures forall j :: 0 <= j < L.NUM_LEVELS && j != i ==>
                levels[j].next == old(levels[j].next) && levels[j].State() == old(levels[j].State())
      ensures ok ==> levels[i].State() ==
                     L.Level(Fetch(bm.files, saved.curr).value, Fetch(bm.files, saved.snap).value, saved.next)
    {
      hide Remembered, Fetch;
      var l := levels[i];
      var c := bm.GetBucketByHash(saved.curr);
      var n := bm.GetBucketByHash(saved.snap);
      if c.None? || n.None? {
        return false;
      }
      l.SetCurr(c.value);
      l.snap := n.value;
      var loaded := l.next.Load(saved.next);
      ok := true;
    }

    /** Brings the merge of one level back to life if it is known by hash only. */
    method RestartMerge(i: nat, bm: BucketManager) returns (ok: bool)
      requires Valid() && bm.Valid() && i < L.NUM_LEVELS && ContentAddressed(hash, bm.files)
      modifies levels[i].next, bm
      ensures bm.Valid() && (ok <==> Revived(bm.files, old(levels[i].State().next)).Some?)
      ensures ok ==> Valid()
      ensures ok ==> levels[i].State() == old(levels[i].State()).(next := Revived(bm.files, old(levels[i].State().next)).value)
      ensures ok ==> forall j :: 0 <= j < L.NUM_LEVELS && j != i ==> levels[j].State() == old(levels[j].State())
    {
      var f := levels[i].next;
      ok := true;
      if f.View().HashInputs? || f.View().HashOutput? {
        ok := f.MakeLive(bm);
      }
    }

    /** Restarts every merge that is known by hash only. */
    method RestartMerges(bm: BucketManager) returns (ok: bool)
      requires Valid() && bm.Valid() && ContentAddressed(hash, bm.files)
      modifies Merges(), bm
      ensures bm.Valid()
      ensures ok <==> forall i :: 0 <= i < L.NUM_LEVELS ==> Revived(bm.files, old(levels[i].State()).next).Some?
      ensures ok ==> Valid() && forall i :: 0 <= i < L.NUM_LEVELS ==>
                levels[i].State() == old(levels[i].State()).(next := Revived(bm.files, old(levels[i].State()).next).value)
    {
      hide Fetch, Revived, ContentAddressed;
      for i := 0 to L.NUM_LEVELS
        invariant Valid() && bm.Valid()
        invariant forall j :: 0 <= j < i ==> Revived(bm.files, old(levels[j].State()).next).Some?
        invariant forall j :: 0 <= j < i ==>
                    levels[j].State() == old(levels[j].State()).(next := Revived(bm.files, old(levels[j].State()).next).value)
        invariant forall j :: i <= j < L.NUM_LEVELS ==> levels[j].State() == old(levels[j].State())
      {
        ok := RestartMerge(i, bm);
        if !ok {
          return;
        }
      }
      ok := true;
    }

    /** Puts every saved level in place. */
    method AssumeLevels(bm: BucketManager, saved: seq<R.SavedLevel>) returns (ok: bool)
      requires Valid() && bm.Valid() && |saved| == L.NUM_LEVELS
      requires forall i :: 0 <= i < L.NUM_LEVELS ==> !L.IsLive(saved[i].next)
      modifies levels, Merges(), bm
      ensures bm.Valid() && Valid() && Merges() == old(Merges())
      ensures ok <==> forall i :: 0 <= i < L.NUM_LEVELS ==> Present(bm.files, saved[i])
      ensures ok ==> forall i :: 0 <= i < L.NUM_LEVELS ==> levels[i].State() == Adopted(bm.files, saved[i])
    {
      hide Fetch;
      for i := 0 to L.NUM_LEVELS
        invariant Valid() && bm.Valid() && forall j :: 0 <= j < L.NUM_LEVELS ==> levels[j].next == old(levels[j].next)
        invariant forall j :: 0 <= j < i ==> Present(bm.files, saved[j]) && levels[j].State() == Adopted(bm.files, saved[j])
      {
        ok := AssumeLevel(i, bm, saved[i]);
        if !ok {
          return;
        }
      }
      ok := true;
    }

    /** Adopts a saved list and restarts its merges. */
    method AssumeState(bm: BucketManager, saved: seq<R.SavedLevel>) returns (ok: bool)
      requires Valid() && bm.Valid() && ContentAddressed(hash, bm.files) && |saved| == L.NUM_LEVELS
      requires forall i :: 0 <= i < L.NUM_LEVELS ==> !L.IsLive(saved[i].next)
      modifies levels, Merges(), bm
      ensures ok <==> forall i :: 0 <= i < L.NUM_LEVELS ==> R.RestoreLevel(bm.files, saved[i]).Some?
      ensures ok ==> Valid() && forall i :: 0 <= i < L.NUM_LEVELS ==> R.RestoreLevel(bm.files, saved[i]) == Some(State()[i])
    {
      hide Fetch, Revived, ContentAddressed;
      ok := AssumeLevels(bm, saved);
      if ok {
        ok := RestartMerges(bm);
      }
    }

    /** The curr and snap buckets of all levels, newest first. */
    method AllShadows() returns (shadows: seq<Bucket>)
      requires Valid()
      ensures shadows == L.Shadows(State(), L.NUM_LEVELS)
    {
      shadows := [];
      for i := 0 to L.NUM_LEVELS
        invariant shadows == L.Shadows(State(), i)
      {
        shadows := shadows + [levels[i].curr, levels[i].snap];
      }
    }
  }

  /** The files of the saved curr and snap are there. */
  predicate Present(files: map<Hash, Bucket>, saved: R.SavedLevel)
  {
    Fetch(files, saved.curr).Some? && Fetch(files, saved.snap).Some?
  }

  function Adopted(files: map<Hash, Bucket>, saved: R.SavedLevel): L.Level
    requires Present(files, saved)
  {
    L.Level(Fetch(files, saved.curr).value, Fetch(files, saved.snap).value, saved.next)
  }

  /** A level above the first after the countdown. */
  function Spilled(ls: seq<L.Level>, ledger: nat, j: nat): L.Level
    requires |ls| == L.NUM_LEVELS && 0 < j < L.NUM_LEVELS
  {
    if L.LevelShouldSpill(ledger, j - 1) then
      L.Prepare(L.Commit(L.Snapped(ls, ledger, j)), j, ledger, ls[j - 1].curr, L.Shadows(ls, j - 1))
    else L.Snapped(ls, ledger, j)
  }

  lemma ShadowsShorten(ls: seq<L.Level>, n: nat)
    requires 0 < n <= |ls|
    ensures |L.Shadows(ls, n)| >= 2 && L.Shadows(ls, n)[..|L.Shadows(ls, n)| - 2] == L.Shadows(ls, n - 1)
  {
  }

  lemma LastNeverSpills(ledger: nat)
    ensures !L.LevelShouldSpill(ledger, L.NUM_LEVELS - 1)
  {
  }
}
