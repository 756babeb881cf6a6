/** Why a restart is invisible: a list rebuilt from saved hashes behaves like the one that was saved. */
module BucketRestart {
  import opened Options
  import opened Buckets
  import opened BucketLevels
  import opened FutureBuckets
  import opened BucketTiling
  import opened BucketLookup

  /** One level of a saved list. */
  datatype SavedLevel = SavedLevel(curr: Hash, snap: Hash, next: Future)

  /** Optionally resolves a merge that has finished. */
  function MaybeResolved(f: Future, ready: bool): Future
  {
    if f.LiveInputs? && ready then LiveOutput(Resolve(f)) else f
  }

  /** A level as it is saved; `ready` says whether its merge has finished by then. */
  function SaveLevel(hash: Bucket -> Hash, l: Level, ready: bool): SavedLevel
  {
    SavedLevel(hash(l.curr), hash(l.snap), Serialized(hash, MaybeResolved(l.next, ready)))
  }

  /** A level restored from files, unless one is missing. */
  function RestoreLevel(files: map<Hash, Bucket>, s: SavedLevel): Option<Level>
  {
    var c, n, f := Fetch(files, s.curr), Fetch(files, s.snap), Revived(files, s.next);
    if c.Some? && n.Some? && f.Some? then Some(Level(c.value, n.value, f.value)) else None
  }

  // ---------------------------------------------------------------- equivalence

  /** Merges that commit to the same bucket. */
  predicate SameFuture(f: Future, g: Future)
  {
    (f.Clear? && g.Clear?) || (IsLive(f) && IsLive(g) && Resolve(f) == Resolve(g))
  }

  predicate SameLevel(a: Level, b: Level)
  {
    a.curr == b.curr && a.snap == b.snap && SameFuture(a.next, b.next)
  }

  ghost predicate SameLevels(a: seq<Level>, b: seq<Level>)
  {
    |a| == |b| == NUM_LEVELS && forall i :: 0 <= i < NUM_LEVELS ==> SameLevel(a[i], b[i])
  }

  lemma {:induction false} SameShadows(a: seq<Level>, b: seq<Level>, n: nat)
    requires SameLevels(a, b) && n <= NUM_LEVELS
    ensures Shadows(a, n) == Shadows(b, n)
  {
    if n > 0 {
      SameShadows(a, b, n - 1);
      assert SameLevel(a[n - 1], b[n - 1]);
    }
  }

  /** A ledger close keeps equivalent lists equivalent. */
  lemma AddBatchSame(a: seq<Level>, b: seq<Level>, ledger: nat, x: Batch)
    requires SameLevels(a, b)
    ensures SameLevels(AddBatch(a, ledger, x), AddBatch(b, ledger, x))
  {
    var a', b' := AddBatch(a, ledger, x), AddBatch(b, ledger, x);
    forall j | 0 <= j < NUM_LEVELS ensures SameLevel(a'[j], b'[j]) {
      assert SameLevel(a[j], b[j]);
      if j > 0 {
        assert SameLevel(a[j - 1], b[j - 1]);
        SameShadows(a, b, j - 1);
      }
    }
  }

  /** The list after further ledger closes, the first of them at ledger `next`. */
  function Continue(ls: seq<Level>, next: nat, batches: seq<Batch>): (r: seq<Level>)
    requires |ls| == NUM_LEVELS
    ensures |r| == NUM_LEVELS
    decreases |batches|
  {
    if |batches| == 0 then ls else Continue(AddBatch(ls, next, batches[0]), next + 1, batches[1..])
  }

  lemma {:induction false} ContinueSame(a: seq<Level>, b: seq<Level>, next: nat, batches: seq<Batch>)
    requires SameLevels(a, b)
    ensures SameLevels(Continue(a, next, batches), Continue(b, next, batches))
    decreases |batches|
  {
    if |batches| > 0 {
      AddBatchSame(a, b, next, batches[0]);
      ContinueSame(AddBatch(a, next, batches[0]), AddBatch(b, next, batches[0]), next + 1, batches[1..]);
    }
  }

  // ---------------------------------------------------------------- hashes

  /** Each level hashes the hashes of its curr and its snap. */
  function LevelHashes(hash: Bucket -> Hash, combine: seq<Hash> -> Hash, ls: seq<Level>): seq<Hash>
  {
    seq<Hash>(|ls|, i requires 0 <= i < |ls| => combine([hash(ls[i].curr), hash(ls[i].snap)]))
  }

  /** The hash of a list. */
  function ListHash(hash: Bucket -> Hash, combine: seq<Hash> -> Hash, ls: seq<Level>): Hash
  {
    combine(LevelHashes(hash, combine, ls))
  }

  function SavedLevelHashes(combine: seq<Hash> -> Hash, saved: seq<SavedLevel>): seq<Hash>
  {
    seq<Hash>(|saved|, i requires 0 <= i < |saved| => combine([saved[i].curr, saved[i].snap]))
  }

  /** The same hash computed from a saved list. */
  function SavedHash(combine: seq<Hash> -> Hash, saved: seq<SavedLevel>): Hash
  {
    combine(SavedLevelHashes(combine, saved))
  }

  ghost predicate CollisionFree<T(!new)>(hash: T -> Hash)
  {
    forall a, b :: hash(a) == hash(b) ==> a == b
  }

  /** The same curr and the same snap at every level. */
  ghost predicate SameBuckets(a: seq<Level>, b: seq<Level>)
  {
    |a| == |b| && forall i :: 0 <= i < |a| ==> a[i].curr == b[i].curr && a[i].snap == b[i].snap
  }

  /** A saved list names the curr and the snap of every level of a list. */
  ghost predicate NamesBuckets(hash: Bucket -> Hash, ls: seq<Level>, saved: seq<SavedLevel>)
  {
    |saved| == |ls| && forall i :: 0 <= i < |ls| ==> saved[i].curr == hash(ls[i].curr) && saved[i].snap == hash(ls[i].snap)
  }

  lemma SameElements<T>(a: seq<T>, b: seq<T>, i: nat)
    requires a == b && i < |a|
    ensures a[i] == b[i]
  {
  }

  /** A saved list has the hash of a list exactly when it names the curr and the snap of every level. */
  lemma TrustedArchiveIff(hash: Bucket -> Hash, combine: seq<Hash> -> Hash, ls: seq<Level>, saved: seq<SavedLevel>)
    requires CollisionFree(combine)
    ensures SavedHash(combine, saved) == ListHash(hash, combine, ls) <==> NamesBuckets(hash, ls, saved)
  {
    var a := SavedLevelHashes(combine, saved);
    var b := LevelHashes(hash, combine, ls);
    if SavedHash(combine, saved) == ListHash(hash, combine, ls) {
      assert a == b;
      forall i | 0 <= i < |ls| ensures saved[i].curr == hash(ls[i].curr) && saved[i].snap == hash(ls[i].snap) {
        var x, y := [saved[i].curr, saved[i].snap], [hash(ls[i].curr), hash(ls[i].snap)];
        SameElements(a, b, i);
        assert combine(x) == combine(y);
        assert x[0] == y[0] && x[1] == y[1];
      }
    }
    if NamesBuckets(hash, ls, saved) {
      forall i | 0 <= i < |ls| ensures a[i] == b[i] {
        assert [saved[i].curr, saved[i].snap] == [hash(ls[i].curr), hash(ls[i].snap)];
      }
      assert a == b;
    }
  }

  /** Two lists have the same hash exactly when every curr and every snap is the same. */
  lemma ListHashIff(hash: Bucket -> Hash, combine: seq<Hash> -> Hash, a: seq<Level>, b: seq<Level>)
    requires CollisionFree(hash) && CollisionFree(combine)
    ensures ListHash(hash, combine, a) == ListHash(hash, combine, b) <==> SameBuckets(a, b)
  {
    hide CollisionFree, SavedHash, ListHash, SaveLevel;
    var ready := seq(|a|, _ => false);
    var saved := SaveAll(hash, a, ready);
    SavedHashIsListHash(hash, combine, a, ready);
    TrustedArchiveIff(hash, combine, b, saved);
    forall i | 0 <= i < |a| ensures saved[i].curr == hash(a[i].curr) && saved[i].snap == hash(a[i].snap) {
      SavesHashes(hash, a[i], false);
    }
    if NamesBuckets(hash, b, saved) {
      forall i | 0 <= i < |a| ensures a[i].curr == b[i].curr && a[i].snap == b[i].snap {
        SameHashSameBucket(hash, a[i].curr, b[i].curr);
        SameHashSameBucket(hash, a[i].snap, b[i].snap);
      }
    }
  }

  lemma SavesHashes(hash: Bucket -> Hash, l: Level, ready: bool)
    ensures SaveLevel(hash, l, ready).curr == hash(l.curr) && SaveLevel(hash, l, ready).snap == hash(l.snap)
  {
  }

  lemma SameHashSameBucket(hash: Bucket -> Hash, a: Bucket, b: Bucket)
    requires CollisionFree(hash) && hash(a) == hash(b)
    ensures a == b
  {
  }

  lemma SameHash(hash: Bucket -> Hash, combine: seq<Hash> -> Hash, a: seq<Level>, b: seq<Level>)
    requires SameLevels(a, b)
    ensures ListHash(hash, combine, a) == ListHash(hash, combine, b)
  {
    assert forall i :: 0 <= i < NUM_LEVELS ==> SameLevel(a[i], b[i]);
    assert LevelHashes(hash, combine, a) == LevelHashes(hash, combine, b);
  }

  /** Saving computes the list's hash unchanged. */
  lemma SavedHashIsListHash(hash: Bucket -> Hash, combine: seq<Hash> -> Hash, ls: seq<Level>, ready: seq<bool>)
    requires |ready| == |ls|
    ensures SavedHash(combine, SaveAll(hash, ls, ready)) == ListHash(hash, combine, ls)
  {
    var saved := SaveAll(hash, ls, ready);
    assert SavedLevelHashes(combine, saved) == LevelHashes(hash, combine, ls);
  }

  function SaveAll(hash: Bucket -> Hash, ls: seq<Level>, ready: seq<bool>): seq<SavedLevel>
    requires |ready| == |ls|
  {
    seq(|ls|, i requires 0 <= i < |ls| => SaveLevel(hash, ls[i], ready[i]))
  }

  /** A pending merge is saved by the hash of its output exactly when it has finished, otherwise by
      the hashes of its inputs. */
  lemma SavesFinished(hash: Bucket -> Hash, l: Level, ready: bool)
    requires IsLive(l.next)
    ensures var n := SaveLevel(hash, l, ready).next;
            if l.next.LiveOutput? || ready then n == HashOutput(hash(Resolve(l.next)))
            else && n.HashInputs? && n.currHash == hash(l.next.curr) && n.snapHash == hash(l.next.snap)
                 && |n.shadowHashes| == |l.next.shadows|
                 && forall i :: 0 <= i < |n.shadowHashes| ==> n.shadowHashes[i] == hash(l.next.shadows[i])
  {
  }

  // ---------------------------------------------------------------- restart

  /** The file of a bucket is there, or the bucket is empty. */
  ghost predicate OnFile(hash: Bucket -> Hash, files: map<Hash, Bucket>, b: Bucket)
  {
    Fetch(files, hash(b)) == Some(b)
  }

  /** The files of everything a saved level refers to are there. */
  ghost predicate FilesKept(hash: Bucket -> Hash, files: map<Hash, Bucket>, l: Level, ready: bool)
  {
    && OnFile(hash, files, l.curr) && OnFile(hash, files, l.snap)
    && match MaybeResolved(l.next, ready)
       case LiveInputs(c, s, sh) =>
         OnFile(hash, files, c) && OnFile(hash, files, s) && forall i :: 0 <= i < |sh| ==> OnFile(hash, files, sh[i])
       case LiveOutput(b) => OnFile(hash, files, b)
       case _ => true
  }

  /** A saved and restored level is equivalent to the original, whether its merge had finished or not. */
  lemma RestoredSame(hash: Bucket -> Hash, files: map<Hash, Bucket>, l: Level, ready: bool)
    requires FilesKept(hash, files, l, ready) && (l.next.Clear? || IsLive(l.next))
    ensures RestoreLevel(files, SaveLevel(hash, l, ready)).Some?
    ensures SameLevel(l, RestoreLevel(files, SaveLevel(hash, l, ready)).value)
  {
    match MaybeResolved(l.next, ready)
    case LiveInputs(c, s, sh) =>
      var hs := Hashes(hash, sh);
      forall i | 0 <= i < |hs| ensures Fetch(files, hs[i]) == Some(sh[i]) {
        assert OnFile(hash, files, sh[i]);
      }
      assert FetchAll(files, hs) == sh;
    case _ =>
  }

  /** Restart is invisible: whatever merges had finished when the list was saved, the restored list
      has the same hash now and after any further ledger closes. */
  lemma RestartIsInvisible(hash: Bucket -> Hash, combine: seq<Hash> -> Hash, files: map<Hash, Bucket>,
                           ls: seq<Level>, ready: seq<bool>, restored: seq<Level>, next: nat, batches: seq<Batch>)
    requires |ls| == |ready| == |restored| == NUM_LEVELS
    requires forall i :: 0 <= i < NUM_LEVELS ==> FilesKept(hash, files, ls[i], ready[i])
    requires forall i :: 0 <= i < NUM_LEVELS ==> ls[i].next.Clear? || IsLive(ls[i].next)
    requires forall i :: 0 <= i < NUM_LEVELS ==> RestoreLevel(files, SaveAll(hash, ls, ready)[i]) == Some(restored[i])
    ensures SameLevels(ls, restored)
    ensures SameLevels(Continue(ls, next, batches), Continue(restored, next, batches))
    ensures ListHash(hash, combine, Continue(ls, next, batches)) == ListHash(hash, combine, Continue(restored, next, batches))
  {
    forall i | 0 <= i < NUM_LEVELS ensures SameLevel(ls[i], restored[i]) {
      RestoredSame(hash, files, ls[i], ready[i]);
      assert SaveAll(hash, ls, ready)[i] == SaveLevel(hash, ls[i], ready[i]);
    }
    ContinueSame(ls, restored, next, batches);
    SameHash(hash, combine, Continue(ls, next, batches), Continue(restored, next, batches));
  }

  /** A run never leaves a hash-only merge in the list, so it can be saved at any ledger. */
  lemma {:induction false} AfterIsLive(bs: seq<Batch>)
    ensures forall i :: 0 <= i < NUM_LEVELS ==> After(bs)[i].next.Clear? || IsLive(After(bs)[i].next)
  {
    if |bs| > 0 {
      AfterIsLive(bs[..|bs| - 1]);
    }
  }

  // ---------------------------------------------------------------- whole runs

  lemma {:induction false} ContinueIsAfter(bs: seq<Batch>, more: seq<Batch>)
    ensures Continue(After(bs), |bs| + 1, more) == After(bs + more)
    decreases |more|
  {
    hide AddBatch;
    if |more| == 0 {
      assert bs + more == bs;
    } else {
      var next := bs + [more[0]];
      assert next[..|next| - 1] == bs;
      ContinueIsAfter(next, more[1..]);
      assert next + more[1..] == bs + more;
    }
  }

  lemma {:induction false} SameLookup(a: seq<Level>, b: seq<Level>, i: nat, k: LedgerKey)
    requires SameLevels(a, b) && i <= NUM_LEVELS
    ensures LookupFrom(a, i, k) == LookupFrom(b, i, k)
    decreases NUM_LEVELS - i
  {
    if i < NUM_LEVELS {
      assert SameLevel(a[i], b[i]);
      SameLookup(a, b, i + 1, k);
    }
  }

  /** A node that was saved at any ledger of a run, with any subset of the pending merges already
      finished, and restored from the files, has at every later ledger the hash of the node that
      ran on, and finds for each key its latest write in the whole run. */
  lemma RestartedRun(hash: Bucket -> Hash, combine: seq<Hash> -> Hash, files: map<Hash, Bucket>,
                     bs: seq<Batch>, ready: seq<bool>, more: seq<Batch>, k: LedgerKey) returns (restored: seq<Level>)
    requires ValidBatches(bs + more) && |bs + more| < 0x1_0000_0000 && |ready| == NUM_LEVELS
    requires forall i :: 0 <= i < NUM_LEVELS ==> FilesKept(hash, files, After(bs)[i], ready[i])
    ensures |restored| == NUM_LEVELS
    ensures forall i :: 0 <= i < NUM_LEVELS ==> RestoreLevel(files, SaveAll(hash, After(bs), ready)[i]) == Some(restored[i])
    ensures var later := Continue(restored, |bs| + 1, more);
            && ListHash(hash, combine, later) == ListHash(hash, combine, After(bs + more))
            && Lookup(later, k) == LastIn(bs + more, 0, |bs + more|, k)
  {
    hide FilesKept, RestoreLevel, SaveLevel, AddBatch, LookupFrom, LastIn;
    var ls := After(bs);
    AfterIsLive(bs);
    forall i | 0 <= i < NUM_LEVELS ensures RestoreLevel(files, SaveLevel(hash, ls[i], ready[i])).Some? {
      RestoredSame(hash, files, ls[i], ready[i]);
    }
    restored := seq(NUM_LEVELS, i requires 0 <= i < NUM_LEVELS => RestoreLevel(files, SaveLevel(hash, ls[i], ready[i])).value);
    RestartIsInvisible(hash, combine, files, ls, ready, restored, |bs| + 1, more);
    ContinueIsAfter(bs, more);
    SameLookup(Continue(restored, |bs| + 1, more), After(bs + more), 0, k);
    LookupIsLatest(bs + more, k);
  }
}
