/** Catching up from buckets: replaying the buckets of an archived list into a database,
    oldest first, and what the database then says. */
module BucketReplay {
  import opened Options
  import opened Buckets
  import opened BucketLevels
  import opened BucketLookup
  import BucketTiling
  import opened FutureBuckets
  import opened BucketRestart

  datatype Applied = Applied(db: Database) | AssertionFailed

  function ApplyEntry(db: Database, e: BucketEntry): Database
  {
    match e
    case Live(entry) => db[LedgerEntryKey(entry) := entry]
    case Dead(key) => db - {key}
  }

  function ApplyAll(db: Database, b: Bucket): Database
  {
    if |b| == 0 then db else ApplyEntry(ApplyAll(db, b[..|b| - 1]), b[|b| - 1])
  }

  /** Applies a bucket file entry by entry. The loop notices the end of the file only after a
      failed read, so the last entry is applied twice; deleting the same key twice fails an
      assertion of the change set that records the deletions. */
  method ApplyBucket(b: Bucket, db: Database) returns (r: Applied)
    requires Sorted(b)
    ensures r == ApplyResult(db, b)
  {
    if |b| == 0 {
      return Applied(db);
    }
    var cur, pos, good := db, 0, true;
    var deleted: set<LedgerKey> := {};
    var entry := b[0];
    while good
      invariant 0 <= pos <= |b|
      invariant pos > 0 ==> entry == b[pos - 1]
      invariant deleted == set i | 0 <= i < pos && b[i].Dead? :: b[i].key
      invariant cur == ApplyAll(db, b[..pos])
      invariant !good ==> pos == |b| && !b[|b| - 1].Dead?
      decreases good, |b| - pos
    {
      if pos < |b| {
        entry := b[pos];
        assert b[..pos + 1][..pos] == b[..pos];
        if entry.Dead? {
          assert entry.key !in deleted by { DistinctBefore(b, pos); }
        }
        pos := pos + 1;
      } else {
        assert b[..|b|] == b;
        good := false;
        if entry.Live? {
          Reapplied(db, b);
        }
      }
      if entry.Dead? {
        if entry.key in deleted {
          return AssertionFailed;
        }
        deleted := deleted + {entry.key};
      }
      cur := ApplyEntry(cur, entry);
    }
    assert b[..|b|] == b;
    r := Applied(cur);
  }

  /** A bucket applies cleanly exactly when it does not end in a tombstone. */
  function ApplyResult(db: Database, b: Bucket): Applied
  {
    if |b| > 0 && b[|b| - 1].Dead? then AssertionFailed else Applied(ApplyAll(db, b))
  }

  lemma DistinctBefore(b: Bucket, pos: nat)
    requires Sorted(b) && pos < |b| && b[pos].Dead?
    ensures b[pos].key !in set i | 0 <= i < pos && b[i].Dead? :: b[i].key
  {
    forall i | 0 <= i < pos && b[i].Dead? ensures b[i].key != b[pos].key {
      KeyOrderIsTotal(b[i].key, b[pos].key, b[i].key);
    }
  }

  lemma Reapplied(db: Database, b: Bucket)
    requires |b| > 0 && b[|b| - 1].Live?
    ensures ApplyEntry(ApplyAll(db, b), b[|b| - 1]) == ApplyAll(db, b)
  {
  }

  /** What a database says about a key once `found` has been written over it. */
  ghost predicate Wrote(before: Database, after: Database, k: LedgerKey, found: Option<BucketEntry>)
  {
    match found
    case Some(Live(e)) => k in after && after[k] == e
    case Some(Dead(_)) => k !in after
    case None => (k in after <==> k in before) && (k in after ==> after[k] == before[k])
  }

  lemma {:induction false} FindLast(b: Bucket, k: LedgerKey)
    requires Sorted(b) && |b| > 0
    ensures Find(b, k) == if Id(b[|b| - 1]) == k then Some(b[|b| - 1]) else Find(b[..|b| - 1], k)
  {
    var n := |b| - 1;
    if n > 0 {
      SortedTail(b);
      assert b[1..][..n - 1] == b[..n][1..];
      assert b[1..][n - 1] == b[n];
      KeyOrderIsTotal(Id(b[0]), Id(b[n]), k);
      FindLast(b[1..], k);
    }
  }

  /** Applying a bucket writes exactly its own keys. */
  lemma {:induction false} ApplyAllWrites(db: Database, b: Bucket, k: LedgerKey)
    requires Sorted(b)
    ensures Wrote(db, ApplyAll(db, b), k, Find(b, k))
  {
    if |b| > 0 {
      ApplyAllWrites(db, b[..|b| - 1], k);
      FindLast(b, k);
    }
  }

  // ---------------------------------------------------------------- the whole list

  /** The buckets of levels `n - 1` down to 0, oldest first: snap before curr. */
  function OldestFirst(ls: seq<Level>, n: nat): (buckets: seq<Bucket>)
    requires n <= |ls|
    ensures |buckets| == 2 * n
    decreases n
  {
    if n == 0 then [] else [ls[n - 1].snap, ls[n - 1].curr] + OldestFirst(ls, n - 1)
  }

  /** What is replayed: everything from the oldest difference on. */
  function Replayed<T(==)>(have: seq<T>, want: seq<T>): seq<T>
    requires |have| == |want|
  {
    if |want| == 0 then []
    else if have[0] != want[0] then want
    else Replayed(have[1..], want[1..])
  }

  function ApplyEach(db: Database, buckets: seq<Bucket>): Database
    decreases |buckets|
  {
    if |buckets| == 0 then db else ApplyEach(ApplyAll(db, buckets[0]), buckets[1..])
  }

  predicate EndsLive(b: Bucket)
  {
    |b| > 0 ==> b[|b| - 1].Live?
  }

  // ---------------------------------------------------------------- by hash

  /** The hashes of the buckets of levels `n - 1` down to 0, oldest first: snap before curr. */
  function OldestHashes(saved: seq<SavedLevel>, n: nat): (hs: seq<Hash>)
    requires n <= |saved|
    ensures |hs| == 2 * n
    decreases n
  {
    if n == 0 then [] else [saved[n - 1].snap, saved[n - 1].curr] + OldestHashes(saved, n - 1)
  }

  /** The hashes of the buckets a list holds. */
  function Held(hash: Bucket -> Hash, ls: seq<Level>): seq<SavedLevel>
  {
    seq(|ls|, i requires 0 <= i < |ls| => SavedLevel(hash(ls[i].curr), hash(ls[i].snap), Clear))
  }

  /** The bucket is there and applies cleanly. */
  predicate Good(files: map<Hash, Bucket>, h: Hash)
  {
    Fetch(files, h).Some? && EndsLive(Fetch(files, h).value)
  }

  function ApplyHashes(files: map<Hash, Bucket>, db: Database, hs: seq<Hash>): Database
    decreases |hs|
  {
    if |hs| == 0 || Fetch(files, hs[0]).None? then db
    else ApplyHashes(files, ApplyAll(db, Fetch(files, hs[0]).value), hs[1..])
  }

  /** Looks the next bucket of a replay up and applies it. */
  method ApplyNext(files: map<Hash, Bucket>, h: Hash, cur: Database, ghost all: seq<Hash>, ghost db: Database, ghost rest: seq<Hash>)
    returns (r: Applied, b: Bucket)
    requires SortedFiles(files) && ReplayLeft(files, all, db, cur, [h] + rest)
    ensures r.Applied? ==> Fetch(files, h) == Some(b) && ReplayLeft(files, all, db, r.db, rest)
    ensures r.AssertionFailed? ==> exists x :: x in all && !Good(files, x)
  {
    hide ReplayLeft, ApplyAll, Sorted;
    ReplayNext(files, all, db, cur, h, rest);
    var found := Fetch(files, h);
    if found.None? {
      return AssertionFailed, [];
    }
    b := found.value;
    NoneSorted();
    r := ApplyBucket(b, cur);
  }

  ghost predicate SortedFiles(files: map<Hash, Bucket>)
  {
    forall h :: h in files ==> Sorted(files[h])
  }

  lemma NoneSorted()
    ensures Sorted([])
  {
  }

  /** A database and a list rebuilt from an archive, or why they were not: the list does not have
      the hash the ledger names, it belongs to another ledger, or a bucket is missing or ends in a
      tombstone. */
  datatype Rebuilt = Rebuilt(db: Database, levels: seq<Level>) | HashDiffers | LedgerDiffers | RebuildFailed

  /** A bucket with the hash wanted: the one already held, or the one on file. */
  ghost predicate TakenFrom(hash: Bucket -> Hash, files: map<Hash, Bucket>, had: Bucket, h: Hash, b: Bucket)
  {
    hash(b) == h && (b == had || Fetch(files, h) == Some(b))
  }

  /** A level taken over from an archive. */
  ghost predicate TakenOver(hash: Bucket -> Hash, files: map<Hash, Bucket>, had: Level, saved: SavedLevel, l: Level)
  {
    && TakenFrom(hash, files, had.curr, saved.curr, l.curr)
    && TakenFrom(hash, files, had.snap, saved.snap, l.snap)
    && l.next == saved.next
  }

  /** One level of the reverse loop. */
  method ApplyLevel(hash: Bucket -> Hash, files: map<Hash, Bucket>, had: Level, saved: SavedLevel, applying: bool, cur: Database,
                    ghost all: seq<Hash>, ghost db: Database, ghost rest: seq<Hash>, ghost unless: seq<Hash>)
    returns (r: Applied, l: Level, now: bool)
    requires ContentAddressed(hash, files) && SortedFiles(files)
    requires ReplayLeft(files, all, db, cur,
                        if applying || saved.snap != hash(had.snap) then [saved.snap] + ([saved.curr] + rest)
                        else if saved.curr != hash(had.curr) then [saved.curr] + rest
                        else unless)
    ensures r.AssertionFailed? ==> exists x :: x in all && !Good(files, x)
    ensures r.Applied? ==> now == (applying || saved.snap != hash(had.snap) || saved.curr != hash(had.curr))
    ensures r.Applied? ==> ReplayLeft(files, all, db, r.db, if now then rest else unless)
    ensures r.Applied? ==> TakenOver(hash, files, had, saved, l)
  {
    hide ReplayLeft, Good, Fetch, ContentAddressed, SortedFiles;
    FetchedHash(hash, files, saved.snap);
    FetchedHash(hash, files, saved.curr);
    l, now, r := had, applying, Applied(cur);
    if now || saved.snap != hash(l.snap) {
      var b;
      r, b := ApplyNext(files, saved.snap, cur, all, db, [saved.curr] + rest);
      if r.AssertionFailed? {
        return;
      }
      l, now := l.(snap := b), true;
    }
    if now || saved.curr != hash(l.curr) {
      var b;
      r, b := ApplyNext(files, saved.curr, r.db, all, db, rest);
      if r.AssertionFailed? {
        return;
      }
      l, now := l.(curr := b, next := Clear), true;
    }
    l := l.(next := saved.next);
  }

  /** Applies the buckets of an archived list over an existing one and takes its levels over. */
  method ApplyBuckets(hash: Bucket -> Hash, files: map<Hash, Bucket>, existing: seq<Level>, saved: seq<SavedLevel>, db: Database)
    returns (r: Rebuilt)
    requires |existing| == |saved| && ContentAddressed(hash, files) && SortedFiles(files)
    ensures var replayed := Replayed(OldestHashes(Held(hash, existing), |existing|), OldestHashes(saved, |saved|));
            if forall h :: h in replayed ==> Good(files, h)
            then && r.Rebuilt? && r.db == ApplyHashes(files, db, replayed) && |r.levels| == |saved|
                 && forall j :: 0 <= j < |saved| ==> TakenOver(hash, files, existing[j], saved[j], r.levels[j])
            else r == RebuildFailed
  {
    hide ReplayLeft, OldestHashes, Replayed, ApplyHashes, Good, Fetch, ContentAddressed, SortedFiles, TakenOver;
    ghost var have := Held(hash, existing);
    ghost var all := Replayed(OldestHashes(have, |existing|), OldestHashes(saved, |saved|));
    var cur, n, applying := db, |saved|, false;
    var levels := existing;
    ReplayStart(files, all, db);
    while n > 0
      invariant 0 <= n <= |saved| == |levels|
      invariant forall j :: 0 <= j < n ==> levels[j] == existing[j]
      invariant forall j :: n <= j < |saved| ==> TakenOver(hash, files, existing[j], saved[j], levels[j])
      invariant ReplayLeft(files, all, db, cur,
                           if applying then OldestHashes(saved, n)
                           else Replayed(OldestHashes(have, n), OldestHashes(saved, n)))
    {
      n := n - 1;
      UnfoldOldest(have, saved, n);
      var res, l;
      res, l, applying := ApplyLevel(hash, files, levels[n], saved[n], applying, cur, all, db, OldestHashes(saved, n),
                                     Replayed(OldestHashes(have, n), OldestHashes(saved, n)));
      if res.AssertionFailed? {
        return RebuildFailed;
      }
      cur, levels := res.db, levels[n := l];
    }
    NothingLeft(have, saved);
    ReplayDone(files, all, db, cur);
    r := Rebuilt(cur, levels);
  }

  /** Catching up to the archived list of a trusted ledger: nothing is touched unless the list has
      the hash the ledger names and belongs to that ledger; at the end the merges are restarted. */
  method ApplyBucketsAt(hash: Bucket -> Hash, combine: seq<Hash> -> Hash, files: map<Hash, Bucket>, bucketListHash: Hash,
                        ledgerSeq: nat, archiveLedger: nat, existing: seq<Level>, saved: seq<SavedLevel>, db: Database)
    returns (r: Rebuilt)
    requires |existing| == |saved| && ContentAddressed(hash, files) && SortedFiles(files)
    ensures var replayed := Replayed(OldestHashes(Held(hash, existing), |existing|), OldestHashes(saved, |saved|));
            if bucketListHash != SavedHash(combine, saved) then r == HashDiffers
            else if archiveLedger != ledgerSeq then r == LedgerDiffers
            else if (forall h :: h in replayed ==> Good(files, h)) && (forall j :: 0 <= j < |saved| ==> Revived(files, saved[j].next).Some?)
            then && r.Rebuilt? && r.db == ApplyHashes(files, db, replayed) && |r.levels| == |saved|
                 && forall j :: 0 <= j < |saved| ==> RestartedOver(hash, files, existing[j], saved[j], r.levels[j])
            else r == RebuildFailed
    ensures r.Rebuilt? && CollisionFree(combine) ==>
              forall ls :: bucketListHash == ListHash(hash, combine, ls) ==> NamesBuckets(hash, ls, saved)
    ensures r.Rebuilt? && CollisionFree(combine) && CollisionFree(hash) ==>
              forall ls :: bucketListHash == ListHash(hash, combine, ls) ==> SameBuckets(ls, r.levels)
  {
    hide OldestHashes, Replayed, ApplyHashes, Good, Fetch, ContentAddressed, SortedFiles, Revived, TakenFrom, SavedHash;
    hide CollisionFree, ListHash, NamesBuckets, SameBuckets;
    if bucketListHash != SavedHash(combine, saved) {
      return HashDiffers;
    }
    if archiveLedger != ledgerSeq {
      return LedgerDiffers;
    }
    r := ApplyBuckets(hash, files, existing, saved, db);
    if r.RebuildFailed? {
      return;
    }
    var levels := r.levels;
    for i := 0 to |saved|
      invariant |levels| == |saved|
      invariant forall j :: 0 <= j < i ==> Revived(files, saved[j].next).Some? && RestartedOver(hash, files, existing[j], saved[j], levels[j])
      invariant forall j :: i <= j < |saved| ==> levels[j] == r.levels[j]
    {
      var next := Revived(files, levels[i].next);
      if next.None? {
        return RebuildFailed;
      }
      levels := levels[i := levels[i].(next := next.value)];
    }
    r := Rebuilt(r.db, levels);
    if CollisionFree(combine) {
      forall ls | bucketListHash == ListHash(hash, combine, ls) ensures NamesBuckets(hash, ls, saved) {
        TrustedArchiveIff(hash, combine, ls, saved);
      }
      if CollisionFree(hash) {
        forall ls | bucketListHash == ListHash(hash, combine, ls) ensures SameBuckets(ls, levels) {
          TakesNamedBuckets(hash, files, existing, saved, levels, ls);
        }
      }
    }
  }

  lemma TakesNamedBuckets(hash: Bucket -> Hash, files: map<Hash, Bucket>, existing: seq<Level>, saved: seq<SavedLevel>,
                          levels: seq<Level>, ls: seq<Level>)
    requires CollisionFree(hash) && NamesBuckets(hash, ls, saved) && |existing| == |levels| == |saved|
    requires forall j :: 0 <= j < |saved| ==> RestartedOver(hash, files, existing[j], saved[j], levels[j])
    ensures SameBuckets(ls, levels)
  {
    hide Revived, Fetch;
    forall j | 0 <= j < |saved| ensures ls[j].curr == levels[j].curr && ls[j].snap == levels[j].snap {
      assert RestartedOver(hash, files, existing[j], saved[j], levels[j]);
    }
  }

  /** A level taken over whose merge has been brought back to life. */
  ghost predicate RestartedOver(hash: Bucket -> Hash, files: map<Hash, Bucket>, had: Level, saved: SavedLevel, l: Level)
  {
    && TakenFrom(hash, files, had.curr, saved.curr, l.curr)
    && TakenFrom(hash, files, had.snap, saved.snap, l.snap)
    && Some(l.next) == Revived(files, saved.next)
  }

  lemma NothingLeft(have: seq<SavedLevel>, saved: seq<SavedLevel>)
    ensures OldestHashes(saved, 0) == []
    ensures Replayed(OldestHashes(have, 0), OldestHashes(saved, 0)) == []
  {
  }

  lemma ReplayStart(files: map<Hash, Bucket>, all: seq<Hash>, db: Database)
    ensures ReplayLeft(files, all, db, db, all)
  {
  }

  lemma ReplayDone(files: map<Hash, Bucket>, all: seq<Hash>, db: Database, cur: Database)
    requires ReplayLeft(files, all, db, cur, [])
    ensures cur == ApplyHashes(files, db, all) && forall h :: h in all ==> Good(files, h)
  {
    hide Good;
    assert all[..|all|] == all;
  }

  lemma UnfoldOldest(have: seq<SavedLevel>, want: seq<SavedLevel>, n: nat)
    requires n < |have| == |want|
    ensures OldestHashes(want, n + 1) == [want[n].snap] + ([want[n].curr] + OldestHashes(want, n))
    ensures Replayed(OldestHashes(have, n + 1), OldestHashes(want, n + 1)) ==
            if want[n].snap != have[n].snap then [want[n].snap] + ([want[n].curr] + OldestHashes(want, n))
            else if want[n].curr != have[n].curr then [want[n].curr] + OldestHashes(want, n)
            else Replayed(OldestHashes(have, n), OldestHashes(want, n))
  {
    var h, w := OldestHashes(have, n + 1), OldestHashes(want, n + 1);
    assert h[1..] == [have[n].curr] + OldestHashes(have, n);
    assert w[1..] == [want[n].curr] + OldestHashes(want, n);
    assert h[1..][1..] == OldestHashes(have, n);
    assert w[1..][1..] == OldestHashes(want, n);
  }

  /** The buckets done so far applied cleanly, and `left` remains of `all`. */
  ghost predicate ReplayLeft(files: map<Hash, Bucket>, all: seq<Hash>, db: Database, cur: Database, left: seq<Hash>)
  {
    && |left| <= |all| && all[|all| - |left|..] == left
    && (forall h :: h in all[..|all| - |left|] ==> Good(files, h))
    && ApplyHashes(files, db, all) == ApplyHashes(files, cur, left)
  }

  lemma ReplayNext(files: map<Hash, Bucket>, all: seq<Hash>, db: Database, cur: Database, h: Hash, rest: seq<Hash>)
    requires ReplayLeft(files, all, db, cur, [h] + rest)
    ensures h in all
    ensures Good(files, h) ==> ReplayLeft(files, all, db, ApplyAll(cur, Fetch(files, h).value), rest)
  {
    hide EndsLive, Fetch;
    var n := |all| - |rest|;
    assert all[n - 1..] == [h] + rest;
    assert all[n - 1] == h;
    assert all[n..] == all[n - 1..][1..] == rest;
    assert all[..n] == all[..n - 1] + [h];
    assert ([h] + rest)[1..] == rest;
  }

  // ---------------------------------------------------------------- by contents

  lemma {:induction false} OldestHashesAre(hash: Bucket -> Hash, ls: seq<Level>, saved: seq<SavedLevel>, n: nat)
    requires n <= |ls| == |saved|
    requires forall i :: 0 <= i < n ==> saved[i].curr == hash(ls[i].curr) && saved[i].snap == hash(ls[i].snap)
    ensures OldestHashes(saved, n) == Hashes(hash, OldestFirst(ls, n))
    decreases n
  {
    if n > 0 {
      OldestHashesAre(hash, ls, saved, n - 1);
    }
  }

  /** Comparing hashes finds the same oldest difference as comparing buckets. */
  lemma {:induction false} ReplayedHashesAre(hash: Bucket -> Hash, have: seq<Bucket>, want: seq<Bucket>)
    requires CollisionFree(hash) && |have| == |want|
    ensures Replayed(Hashes(hash, have), Hashes(hash, want)) == Hashes(hash, Replayed(have, want))
    decreases |want|
  {
    if |want| > 0 {
      ReplayedHashesAre(hash, have[1..], want[1..]);
      assert Hashes(hash, have)[1..] == Hashes(hash, have[1..]);
      assert Hashes(hash, want)[1..] == Hashes(hash, want[1..]);
      if hash(have[0]) == hash(want[0]) {
        assert have[0] == want[0];
      }
    } else {
      assert Hashes(hash, want) == [];
    }
  }

  lemma {:induction false} ApplyHashesIs(hash: Bucket -> Hash, files: map<Hash, Bucket>, db: Database, bs: seq<Bucket>)
    requires forall b :: b in bs ==> OnFile(hash, files, b)
    ensures ApplyHashes(files, db, Hashes(hash, bs)) == ApplyEach(db, bs)
    decreases |bs|
  {
    if |bs| > 0 {
      assert OnFile(hash, files, bs[0]);
      assert Hashes(hash, bs)[1..] == Hashes(hash, bs[1..]);
      ApplyHashesIs(hash, files, ApplyAll(db, bs[0]), bs[1..]);
    }
  }

  lemma {:induction false} ReplayedFromWanted<T>(have: seq<T>, want: seq<T>)
    requires |have| == |want|
    ensures forall x :: x in Replayed(have, want) ==> x in want
    decreases |want|
  {
    if |want| > 0 {
      ReplayedFromWanted(have[1..], want[1..]);
    }
  }

  lemma {:induction false} OldestAreLevels(ls: seq<Level>, n: nat)
    requires n <= |ls|
    ensures forall b :: b in OldestFirst(ls, n) ==> exists i :: 0 <= i < n && (b == ls[i].curr || b == ls[i].snap)
    decreases n
  {
    if n > 0 {
      OldestAreLevels(ls, n - 1);
      forall b | b in OldestFirst(ls, n) ensures exists i :: 0 <= i < n && (b == ls[i].curr || b == ls[i].snap) {
        if b in OldestFirst(ls, n - 1) {
          var i :| 0 <= i < n - 1 && (b == ls[i].curr || b == ls[i].snap);
        } else {
          assert b == ls[n - 1].curr || b == ls[n - 1].snap;
        }
      }
    }
  }

  /** The archive of a list, whichever of its merges were finished when it was saved. */
  ghost predicate ArchiveOf(hash: Bucket -> Hash, files: map<Hash, Bucket>, archived: seq<Level>, ready: seq<bool>)
  {
    && |archived| == |ready| == NUM_LEVELS
    && forall i :: 0 <= i < NUM_LEVELS ==>
         FilesKept(hash, files, archived[i], ready[i]) && (archived[i].next.Clear? || IsLive(archived[i].next))
  }

  /** With collision-free hashing and the files of the archive at hand, what is replayed is the
      buckets from the oldest difference on. */
  lemma ReplayByContents(hash: Bucket -> Hash, files: map<Hash, Bucket>, existing: seq<Level>, archived: seq<Level>,
                         ready: seq<bool>, db: Database)
    requires CollisionFree(hash) && ArchiveOf(hash, files, archived, ready) && |existing| == NUM_LEVELS
    ensures var hs := Replayed(OldestHashes(Held(hash, existing), NUM_LEVELS), OldestHashes(SaveAll(hash, archived, ready), NUM_LEVELS));
            var bs := Replayed(OldestFirst(existing, NUM_LEVELS), OldestFirst(archived, NUM_LEVELS));
            && ApplyHashes(files, db, hs) == ApplyEach(db, bs)
            && ((forall h :: h in hs ==> Good(files, h)) <==> (forall b :: b in bs ==> EndsLive(b)))
  {
    hide OldestHashes, OldestFirst, Replayed, ApplyHashes, ApplyEach, CollisionFree, EndsLive, SaveLevel, Fetch;
    var saved := SaveAll(hash, archived, ready);
    SavedHashes(hash, archived, ready);
    OldestHashesAre(hash, existing, Held(hash, existing), NUM_LEVELS);
    OldestHashesAre(hash, archived, saved, NUM_LEVELS);
    var have, want := OldestFirst(existing, NUM_LEVELS), OldestFirst(archived, NUM_LEVELS);
    var bs := Replayed(have, want);
    ReplayedHashesAre(hash, have, want);
    ReplayedFromWanted(have, want);
    OldestAreLevels(archived, NUM_LEVELS);
    forall b | b in bs ensures OnFile(hash, files, b) {
      var i :| 0 <= i < NUM_LEVELS && (b == archived[i].curr || b == archived[i].snap);
      assert FilesKept(hash, files, archived[i], ready[i]);
    }
    ApplyHashesIs(hash, files, db, bs);
    GoodAre(hash, files, bs);
  }

  lemma SavedHashes(hash: Bucket -> Hash, ls: seq<Level>, ready: seq<bool>)
    requires |ls| == |ready|
    ensures forall i :: 0 <= i < |ls| ==>
              SaveAll(hash, ls, ready)[i].curr == hash(ls[i].curr) && SaveAll(hash, ls, ready)[i].snap == hash(ls[i].snap)
  {
  }

  lemma GoodAre(hash: Bucket -> Hash, files: map<Hash, Bucket>, bs: seq<Bucket>)
    requires forall b :: b in bs ==> OnFile(hash, files, b)
    ensures (forall h :: h in Hashes(hash, bs) ==> Good(files, h)) <==> (forall b :: b in bs ==> EndsLive(b))
  {
    hide EndsLive, Fetch;
    var hs := Hashes(hash, bs);
    forall i | 0 <= i < |bs| ensures hs[i] in hs && (Good(files, hs[i]) <==> EndsLive(bs[i])) {
      assert bs[i] in bs;
    }
    if forall h :: h in hs ==> Good(files, h) {
      forall b | b in bs ensures EndsLive(b) {
        var i :| 0 <= i < |bs| && bs[i] == b;
        assert Good(files, hs[i]);
      }
    }
    if forall b :: b in bs ==> EndsLive(b) {
      forall h | h in hs ensures Good(files, h) {
        var i :| 0 <= i < |hs| && hs[i] == h;
        assert bs[i] in bs;
      }
    }
  }

  /** The levels taken over and restarted are equivalent to the archived ones. */
  lemma TakenOverSame(hash: Bucket -> Hash, files: map<Hash, Bucket>, had: Level, l: Level, ready: bool, taken: Level)
    requires CollisionFree(hash) && FilesKept(hash, files, l, ready) && (l.next.Clear? || IsLive(l.next))
    requires RestartedOver(hash, files, had, SaveLevel(hash, l, ready), taken)
    ensures SameLevel(l, taken)
  {
    RestoredSame(hash, files, l, ready);
    hide FilesKept;
    assert hash(taken.curr) == hash(l.curr) && hash(taken.snap) == hash(l.snap);
  }

  /** A fresh node that catches up from the archive of a run, saved with any subset of its merges
      finished: its database is that of the run, its list is equivalent to the run's, and the two
      have the same hash after any further ledgers. */
  lemma CatchupRebuildsRun(hash: Bucket -> Hash, combine: seq<Hash> -> Hash, files: map<Hash, Bucket>, bs: seq<Batch>, ready: seq<bool>,
                           r: Rebuilt, more: seq<Batch>)
    requires ValidBatches(bs) && |bs| < 0x1_0000_0000 && CollisionFree(hash) && ArchiveOf(hash, files, After(bs), ready)
    requires r.Rebuilt? && |r.levels| == NUM_LEVELS
    requires var saved := SaveAll(hash, After(bs), ready);
             && r.db == ApplyHashes(files, map[], Replayed(OldestHashes(Held(hash, EmptyLevels()), NUM_LEVELS), OldestHashes(saved, NUM_LEVELS)))
             && forall j :: 0 <= j < NUM_LEVELS ==> RestartedOver(hash, files, EmptyLevels()[j], saved[j], r.levels[j])
    ensures r.db == DatabaseAfter(bs) && SameLevels(After(bs), r.levels)
    ensures ListHash(hash, combine, Continue(r.levels, |bs| + 1, more)) == ListHash(hash, combine, After(bs + more))
  {
    hide ApplyHashes, Replayed, OldestHashes, RestartedOver, FilesKept, CollisionFree, ValidBatches, DatabaseAfter, ApplyEach, OldestFirst;
    var ls := After(bs);
    ReplayByContents(hash, files, EmptyLevels(), ls, ready, map[]);
    ReplayRebuildsDatabase(bs);
    forall j | 0 <= j < NUM_LEVELS ensures SameLevel(ls[j], r.levels[j]) {
      assert SaveAll(hash, ls, ready)[j] == SaveLevel(hash, ls[j], ready[j]);
      TakenOverSame(hash, files, EmptyLevels()[j], ls[j], ready[j], r.levels[j]);
    }
    ContinueSame(ls, r.levels, |bs| + 1, more);
    ContinueIsAfter(bs, more);
    SameHash(hash, combine, Continue(ls, |bs| + 1, more), Continue(r.levels, |bs| + 1, more));
  }

  /** The newest occurrence of a key in an oldest-first list of buckets. */
  function NewestIn(buckets: seq<Bucket>, k: LedgerKey): Option<BucketEntry>
  {
    if |buckets| == 0 then None else Override(Find(buckets[0], k), NewestIn(buckets[1..], k))
  }

  /** Replay writes every key of the replayed buckets to its newest value and leaves the others alone. */
  lemma {:induction false} ApplyEachWrites(db: Database, buckets: seq<Bucket>, k: LedgerKey)
    requires forall i :: 0 <= i < |buckets| ==> Sorted(buckets[i])
    ensures Wrote(db, ApplyEach(db, buckets), k, NewestIn(buckets, k))
    decreases |buckets|
  {
    if |buckets| > 0 {
      ApplyAllWrites(db, buckets[0], k);
      ApplyEachWrites(ApplyAll(db, buckets[0]), buckets[1..], k);
    }
  }

  /** Oldest-first replay order and newest-first lookup agree. */
  lemma {:induction false} NewestIsLookup(ls: seq<Level>, n: nat, k: LedgerKey)
    requires n <= |ls|
    ensures Override(LookupFrom(ls, n, k), NewestIn(OldestFirst(ls, n), k)) == Lookup(ls, k)
    decreases n
  {
    if n > 0 {
      var l, rest := ls[n - 1], OldestFirst(ls, n - 1);
      NewestIsLookup(ls, n - 1, k);
      assert OldestFirst(ls, n)[1..] == [l.curr] + rest;
      assert ([l.curr] + rest)[1..] == rest;
    }
  }

  lemma {:induction false} ReplayedFromEmpty(have: seq<Bucket>, want: seq<Bucket>, k: LedgerKey)
    requires |have| == |want| && forall b :: b in have ==> b == []
    ensures NewestIn(Replayed(have, want), k) == NewestIn(want, k)
    ensures forall b :: b in Replayed(have, want) ==> b in want
  {
    if |want| > 0 && have[0] == want[0] {
      assert have[0] in have;
      assert forall b :: b in have[1..] ==> b in have;
      ReplayedFromEmpty(have[1..], want[1..], k);
      assert forall b :: b in want[1..] ==> b in want;
    }
  }

  lemma {:induction false} EmptyBuckets(n: nat)
    requires n <= NUM_LEVELS
    ensures forall b :: b in OldestFirst(EmptyLevels(), n) ==> b == []
  {
    if n > 0 {
      EmptyBuckets(n - 1);
    }
  }

  lemma {:induction false} SortedBuckets(ls: seq<Level>, n: nat)
    requires n <= |ls| && forall i :: 0 <= i < |ls| ==> Sorted(ls[i].curr) && Sorted(ls[i].snap)
    ensures forall b :: b in OldestFirst(ls, n) ==> Sorted(b)
  {
    if n > 0 {
      SortedBuckets(ls, n - 1);
    }
  }

  /** On an empty database, replaying a list over an empty one makes the database say about every
      key what the newest-first lookup says. */
  lemma ReplayAgrees(ls: seq<Level>, k: LedgerKey)
    requires |ls| == NUM_LEVELS && forall i :: 0 <= i < |ls| ==> Sorted(ls[i].curr) && Sorted(ls[i].snap)
    ensures Agrees(ApplyEach(map[], Replayed(OldestFirst(EmptyLevels(), NUM_LEVELS), OldestFirst(ls, NUM_LEVELS))),
                   k, Lookup(ls, k))
  {
    hide Lookup, LookupFrom, OldestFirst, Replayed, Sorted;
    var have, want := OldestFirst(EmptyLevels(), NUM_LEVELS), OldestFirst(ls, NUM_LEVELS);
    EmptyBuckets(NUM_LEVELS);
    SortedBuckets(ls, NUM_LEVELS);
    ReplayedFromEmpty(have, want, k);
    var replayed := Replayed(have, want);
    assert forall i :: 0 <= i < |replayed| ==> replayed[i] in replayed;
    ApplyEachWrites(map[], replayed, k);
    NewestIsLookup(ls, NUM_LEVELS, k);
    LookupEnds(ls, k);
  }

  lemma LookupEnds(ls: seq<Level>, k: LedgerKey)
    ensures LookupFrom(ls, |ls|, k).None?
  {
  }

  /** On an empty database, replaying the list of a run over an empty list rebuilds exactly the
      database of that run. */
  lemma ReplayRebuildsDatabase(bs: seq<Batch>)
    requires ValidBatches(bs) && |bs| < 0x1_0000_0000
    ensures ApplyEach(map[], Replayed(OldestFirst(EmptyLevels(), NUM_LEVELS), OldestFirst(After(bs), NUM_LEVELS)))
            == DatabaseAfter(bs)
  {
    hide Lookup, After, ApplyEach, DatabaseAfter, BucketTiling.Covers, EmptyLevels, OldestFirst, Replayed;
    var ls := After(bs);
    var db: Database := ApplyEach(map[], Replayed(OldestFirst(EmptyLevels(), NUM_LEVELS), OldestFirst(ls, NUM_LEVELS)));
    BucketTiling.AfterOK(bs);
    forall i | 0 <= i < NUM_LEVELS ensures Sorted(ls[i].curr) && Sorted(ls[i].snap) {
      LevelSorted(ls, bs, i);
    }
    forall k ensures (k in db <==> k in DatabaseAfter(bs)) && (k in db ==> db[k] == DatabaseAfter(bs)[k]) {
      ReplayAgrees(ls, k);
      ListRefinesMap(bs, k);
    }
  }

  lemma LevelSorted(ls: seq<Level>, bs: seq<Batch>, i: nat)
    requires BucketTiling.ListOK(ls, bs) && i < NUM_LEVELS
    ensures Sorted(ls[i].curr) && Sorted(ls[i].snap)
  {
    assert BucketTiling.LevelOK(ls[i], i, bs);
  }

  /** The failure is reachable: a ledger that only deletes a key leaves a bucket that cannot be replayed. */
  lemma TombstoneReplayFails(k: LedgerKey)
    ensures var bs := [Batch([], [k])];
            ValidBatches(bs) &&
            exists b :: b in Replayed(OldestFirst(EmptyLevels(), NUM_LEVELS), OldestFirst(After(bs), NUM_LEVELS)) && !EndsLive(b)
  {
    hide After, OldestFirst, Replayed, BatchBucket, Merge;
    var x := Batch([], [k]);
    var ls := After([x]);
    TombstoneBucket(k);
    FirstCurr(x);
    NewestCurr(ls, NUM_LEVELS);
    var have, want := OldestFirst(EmptyLevels(), NUM_LEVELS), OldestFirst(ls, NUM_LEVELS);
    ReplayedKeepsLast(have, want);
    EmptyBuckets(NUM_LEVELS);
    assert have[|have| - 1] in have;
    assert want[|want| - 1] == [Dead(k)] && !EndsLive([Dead(k)]);
    assert [Dead(k)] in Replayed(have, want);
  }

  lemma TombstoneBucket(k: LedgerKey)
    ensures BatchBucket(Batch([], [k])) == [Dead(k)] && Merge([], [Dead(k)], []) == [Dead(k)]
  {
    assert LiveEntries([]) == [] && DeadEntries([k]) == [Dead(k)];
    assert [Dead(k)][1..] == [];
    assert Sort([Dead(k)]) == [Dead(k)];
    assert Merge([], [], []) == [];
    assert Merge([], [Dead(k)], []) == [Dead(k)] + Merge([], [], []);
  }

  lemma FirstCurr(x: Batch)
    ensures After([x])[0].curr == Merge([], BatchBucket(x), [])
  {
    hide BatchBucket, Merge, LevelShouldSpill;
    assert [x][..|[x]| - 1] == [];
    BucketTiling.SpillsAt(0, 1);
    assert Half(0) == 2;
    assert After([x]) == AddBatch(EmptyLevels(), 1, x);
  }

  lemma {:induction false} NewestCurr(ls: seq<Level>, n: nat)
    requires 0 < n <= |ls|
    ensures OldestFirst(ls, n)[2 * n - 1] == ls[0].curr
  {
    if n > 1 {
      NewestCurr(ls, n - 1);
    }
  }

  lemma {:induction false} ReplayedKeepsLast(have: seq<Bucket>, want: seq<Bucket>)
    requires |have| == |want| > 0
    ensures have[|have| - 1] != want[|want| - 1] ==> want[|want| - 1] in Replayed(have, want)
  {
    if have[0] == want[0] && |want| > 1 {
      ReplayedKeepsLast(have[1..], want[1..]);
    }
  }
}
