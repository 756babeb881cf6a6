/** Buckets: strictly sorted runs of ledger entries and tombstones, and the one-pass merge
    that lets a newer bucket override an older one while dropping shadowed entries. */
module Buckets {
  import opened Options

  datatype LedgerKey =
    | AccountKey(account: nat)
    | TrustLineKey(account: nat, currency: nat)
    | OfferKey(account: nat, offer: nat)

  datatype LedgerEntry =
    | Account(account: nat, body: nat)
    | TrustLine(account: nat, currency: nat, body: nat)
    | Offer(account: nat, offer: nat, body: nat)

  datatype BucketEntry = Live(entry: LedgerEntry) | Dead(key: LedgerKey)

  type Bucket = seq<BucketEntry>

  function LedgerEntryKey(e: LedgerEntry): LedgerKey
  {
    match e
    case Account(a, _) => AccountKey(a)
    case TrustLine(a, c, _) => TrustLineKey(a, c)
    case Offer(a, o, _) => OfferKey(a, o)
  }

  function Id(e: BucketEntry): LedgerKey
  {
    match e
    case Live(entry) => LedgerEntryKey(entry)
    case Dead(key) => key
  }

  function TypeRank(k: LedgerKey): nat
  {
    match k
    case AccountKey(_) => 0
    case TrustLineKey(_, _) => 1
    case OfferKey(_, _) => 2
  }

  /** Identity order: by entry type, then by the identifying fields. */
  predicate KeyLess(a: LedgerKey, b: LedgerKey)
  {
    TypeRank(a) < TypeRank(b) ||
    (TypeRank(a) == TypeRank(b) &&
     match a
     case AccountKey(x) => x < b.account
     case TrustLineKey(x, c) => x < b.account || (x == b.account && c < b.currency)
     case OfferKey(x, o) => x < b.account || (x == b.account && o < b.offer))
  }

  predicate Less(a: BucketEntry, b: BucketEntry)
  {
    KeyLess(Id(a), Id(b))
  }

  /** The identity order is a strict total order on keys, so two entries that are not ordered
      either way have the same key. */
  lemma KeyOrderIsTotal(a: LedgerKey, b: LedgerKey, c: LedgerKey)
    ensures !KeyLess(a, a)
    ensures KeyLess(a, b) && KeyLess(b, c) ==> KeyLess(a, c)
    ensures !KeyLess(a, b) && !KeyLess(b, a) <==> a == b
  {
  }

  /** Accounts come before trust lines and those before offers, whoever they belong to; within a
      type the account decides, and only then the currency or the offer number. */
  lemma KeyOrderIs(x: nat, y: nat, c: nat, d: nat)
    ensures KeyLess(AccountKey(x), TrustLineKey(y, d)) && KeyLess(AccountKey(x), OfferKey(y, d))
    ensures KeyLess(TrustLineKey(x, c), OfferKey(y, d))
    ensures KeyLess(AccountKey(x), AccountKey(y)) <==> x < y
    ensures KeyLess(TrustLineKey(x, c), TrustLineKey(y, d)) <==> x < y || (x == y && c < d)
    ensures KeyLess(OfferKey(x, c), OfferKey(y, d)) <==> x < y || (x == y && c < d)
  {
  }

  /** What a key leaves out of an entry: entries share a key exactly when they are of one type and
      agree on all but their body. */
  lemma SameKeyIff(e: LedgerEntry, f: LedgerEntry)
    ensures LedgerEntryKey(e) == LedgerEntryKey(f) <==>
            match e
            case Account(a, _) => f.Account? && f.account == a
            case TrustLine(a, c, _) => f.TrustLine? && f.account == a && f.currency == c
            case Offer(a, o, _) => f.Offer? && f.account == a && f.offer == o
  {
  }

  ghost predicate Sorted(b: Bucket)
  {
    forall i, j :: 0 <= i < j < |b| ==> Less(b[i], b[j])
  }

  predicate Contains(b: Bucket, k: LedgerKey)
  {
    exists i :: 0 <= i < |b| && Id(b[i]) == k
  }

  /** The entry a bucket holds for a key. */
  function Find(b: Bucket, k: LedgerKey): Option<BucketEntry>
  {
    if |b| == 0 then None
    else if Id(b[0]) == k then Some(b[0])
    else Find(b[1..], k)
  }

  lemma {:induction false} FindIff(b: Bucket, k: LedgerKey)
    ensures Find(b, k).Some? <==> Contains(b, k)
    ensures Find(b, k).Some? ==> Find(b, k).value in b && Id(Find(b, k).value) == k
  {
    if |b| != 0 {
      FindIff(b[1..], k);
      if Contains(b, k) && Id(b[0]) != k {
        var i :| 0 <= i < |b| && Id(b[i]) == k;
        assert b[1..][i - 1] == b[i];
      }
      if Contains(b[1..], k) {
        var i :| 0 <= i < |b[1..]| && Id(b[1..][i]) == k;
        assert b[i + 1] == b[1..][i];
      }
    }
  }

  // ---------------------------------------------------------------- merge

  predicate Shadowed(k: LedgerKey, shadows: seq<Bucket>)
  {
    exists j :: 0 <= j < |shadows| && Contains(shadows[j], k)
  }

  function Put(e: BucketEntry, shadows: seq<Bucket>): Bucket
  {
    if Shadowed(Id(e), shadows) then [] else [e]
  }

  /** The merge of two sorted buckets, one smallest key at a time. */
  function Merge(prior: Bucket, recent: Bucket, shadows: seq<Bucket>): Bucket
    decreases |prior| + |recent|
  {
    if |prior| == 0 && |recent| == 0 then []
    else if |recent| == 0 then Put(prior[0], shadows) + Merge(prior[1..], recent, shadows)
    else if |prior| == 0 then Put(recent[0], shadows) + Merge(prior, recent[1..], shadows)
    else if Less(prior[0], recent[0]) then Put(prior[0], shadows) + Merge(prior[1..], recent, shadows)
    else if Less(recent[0], prior[0]) then Put(recent[0], shadows) + Merge(prior, recent[1..], shadows)
    else Put(recent[0], shadows) + Merge(prior[1..], recent[1..], shadows)
  }

  lemma SortedTail(b: Bucket)
    requires Sorted(b) && |b| > 0
    ensures Sorted(b[1..])
    ensures forall i :: 0 <= i < |b[1..]| ==> Less(b[0], b[1..][i])
  {
  }

  /** Every key of `b` is above `e`. */
  ghost predicate AllAbove(e: BucketEntry, b: Bucket)
  {
    forall i :: 0 <= i < |b| ==> Less(e, b[i])
  }

  lemma FindBelow(b: Bucket, e: BucketEntry)
    requires AllAbove(e, b)
    ensures Find(b, Id(e)).None?
  {
    FindIff(b, Id(e));
    KeyOrderIsTotal(Id(e), Id(e), Id(e));
  }

  /** The next candidate of a merge and what is left after it. */
  function Next(prior: Bucket, recent: Bucket): (BucketEntry, Bucket, Bucket)
    requires |prior| + |recent| > 0
  {
    if |recent| == 0 then (prior[0], prior[1..], recent)
    else if |prior| == 0 then (recent[0], prior, recent[1..])
    else if Less(prior[0], recent[0]) then (prior[0], prior[1..], recent)
    else if Less(recent[0], prior[0]) then (recent[0], prior, recent[1..])
    else (recent[0], prior[1..], recent[1..])
  }

  lemma MergeUnfolds(prior: Bucket, recent: Bucket, shadows: seq<Bucket>)
    requires |prior| + |recent| > 0
    ensures var (e, o, n) := Next(prior, recent); Merge(prior, recent, shadows) == Put(e, shadows) + Merge(o, n, shadows)
  {
  }

  /** The candidate is the smallest key left, and the rest stays sorted above it. */
  lemma NextIsLeast(prior: Bucket, recent: Bucket)
    requires Sorted(prior) && Sorted(recent) && |prior| + |recent| > 0
    ensures var (e, o, n) := Next(prior, recent);
            Sorted(o) && Sorted(n) && AllAbove(e, o) && AllAbove(e, n) && |o| + |n| < |prior| + |recent|
  {
    var (e, o, n) := Next(prior, recent);
    if |prior| > 0 { SortedTail(prior); }
    if |recent| > 0 { SortedTail(recent); }
    if |prior| > 0 && |recent| > 0 {
      if Less(prior[0], recent[0]) {
        forall i | 0 <= i < |recent| ensures Less(e, recent[i]) {
          if i > 0 { KeyOrderIsTotal(Id(e), Id(recent[0]), Id(recent[i])); }
        }
      } else if Less(recent[0], prior[0]) {
        forall i | 0 <= i < |prior| ensures Less(e, prior[i]) {
          if i > 0 { KeyOrderIsTotal(Id(e), Id(prior[0]), Id(prior[i])); }
        }
      } else {
        KeyOrderIsTotal(Id(prior[0]), Id(recent[0]), Id(e));
      }
    }
  }

  lemma {:induction false} MergeAbove(e: BucketEntry, prior: Bucket, recent: Bucket, shadows: seq<Bucket>)
    requires AllAbove(e, prior) && AllAbove(e, recent)
    ensures AllAbove(e, Merge(prior, recent, shadows))
    decreases |prior| + |recent|
  {
    if |prior| + |recent| > 0 {
      var (f, o, n) := Next(prior, recent);
      MergeUnfolds(prior, recent, shadows);
      MergeAbove(e, o, n, shadows);
    }
  }

  /** Merging sorted buckets gives a sorted bucket. */
  lemma {:induction false} MergeSorted(prior: Bucket, recent: Bucket, shadows: seq<Bucket>)
    requires Sorted(prior) && Sorted(recent)
    ensures Sorted(Merge(prior, recent, shadows))
    decreases |prior| + |recent|
  {
    if |prior| + |recent| > 0 {
      var (e, o, n) := Next(prior, recent);
      MergeUnfolds(prior, recent, shadows);
      NextIsLeast(prior, recent);
      MergeSorted(o, n, shadows);
      MergeAbove(e, o, n, shadows);
    }
  }

  function Override(prior: Option<BucketEntry>, recent: Option<BucketEntry>): Option<BucketEntry>
  {
    if recent.Some? then recent else prior
  }

  lemma FindNext(prior: Bucket, recent: Bucket, k: LedgerKey)
    requires Sorted(prior) && Sorted(recent) && |prior| + |recent| > 0
    ensures var (e, o, n) := Next(prior, recent);
            if Id(e) == k then
              Override(Find(prior, k), Find(recent, k)) == Some(e) && Find(o, k).None? && Find(n, k).None?
            else
              Find(prior, k) == Find(o, k) && Find(recent, k) == Find(n, k)
  {
    var (e, o, n) := Next(prior, recent);
    NextIsLeast(prior, recent);
    if Id(e) == k {
      FindBelow(o, e);
      FindBelow(n, e);
    }
    if |prior| > 0 && |recent| > 0 {
      KeyOrderIsTotal(Id(prior[0]), Id(recent[0]), k);
    }
  }

  /** A merge answers every key as "new overrides old, minus every key found in any shadow". */
  lemma {:induction false} FindMerge(prior: Bucket, recent: Bucket, shadows: seq<Bucket>, k: LedgerKey)
    requires Sorted(prior) && Sorted(recent)
    ensures Find(Merge(prior, recent, shadows), k) ==
            if Shadowed(k, shadows) then None else Override(Find(prior, k), Find(recent, k))
    decreases |prior| + |recent|
  {
    if |prior| + |recent| > 0 {
      var (e, o, n) := Next(prior, recent);
      MergeUnfolds(prior, recent, shadows);
      NextIsLeast(prior, recent);
      FindNext(prior, recent, k);
      FindMerge(o, n, shadows, k);
      var rest := Merge(o, n, shadows);
      if Shadowed(Id(e), shadows) {
        assert Put(e, shadows) + rest == rest;
      } else {
        assert ([e] + rest)[1..] == rest;
      }
    }
  }

  // ---------------------------------------------------------------- the single pass

  /** A shadow iterator has only skipped keys below everything still to come. */
  ghost predicate Behind(shadow: Bucket, pos: nat, rest: Bucket)
  {
    pos <= |shadow| && forall i, j :: 0 <= i < pos && 0 <= j < |rest| ==> Less(shadow[i], rest[j])
  }

  ghost predicate AllBehind(shadows: seq<Bucket>, pos: seq<nat>, rest: Bucket)
  {
    |pos| == |shadows| && forall s :: 0 <= s < |shadows| ==> Behind(shadows[s], pos[s], rest)
  }

  /** Offers a candidate for output, moving the shadow iterators forward just far enough.
      When one of them shadows the candidate, the later ones are left where they are. */
  method MaybePut(e: BucketEntry, shadows: seq<Bucket>, positions: seq<nat>, ghost rest: Bucket)
    returns (put: bool, moved: seq<nat>)
    requires forall s :: 0 <= s < |shadows| ==> Sorted(shadows[s])
    requires AllBehind(shadows, positions, [e]) && AllBehind(shadows, positions, rest) && AllAbove(e, rest)
    ensures put <==> !Shadowed(Id(e), shadows)
    ensures AllBehind(shadows, moved, rest)
  {
    moved := positions;
    for s := 0 to |shadows|
      invariant AllBehind(shadows, moved, [e]) && AllBehind(shadows, moved, rest)
      invariant forall t :: 0 <= t < s ==> !Contains(shadows[t], Id(e))
    {
      var p := moved[s];
      ghost var shadow := shadows[s];
      while p < |shadows[s]| && Less(shadows[s][p], e)
        invariant p <= |shadows[s]| && Behind(shadows[s], p, [e]) && Behind(shadows[s], p, rest)
      {
        forall j | 0 <= j < |rest| ensures Less(shadow[p], rest[j]) {
          KeyOrderIsTotal(Id(shadow[p]), Id(e), Id(rest[j]));
        }
        p := p + 1;
      }
      moved := moved[s := p];
      if p < |shadows[s]| && !Less(e, shadows[s][p]) {
        KeyOrderIsTotal(Id(shadow[p]), Id(e), Id(e));
        assert Contains(shadows[s], Id(e));
        return false, moved;
      }
      NotContained(shadows[s], p, e);
    }
    put := true;
  }

  /** Keys below a position are smaller and keys from it on are larger, so `e` is not there. */
  lemma NotContained(shadow: Bucket, p: nat, e: BucketEntry)
    requires Sorted(shadow) && p <= |shadow| && Behind(shadow, p, [e])
    requires p < |shadow| ==> Less(e, shadow[p])
    ensures !Contains(shadow, Id(e))
  {
    forall i | 0 <= i < |shadow| ensures Id(shadow[i]) != Id(e) {
      KeyOrderIsTotal(Id(e), Id(e), Id(e));
      if i < p {
        assert Less(shadow[i], [e][0]);
      } else if i > p {
        KeyOrderIsTotal(Id(e), Id(shadow[p]), Id(shadow[i]));
      }
    }
  }

  lemma BehindSuffix(shadows: seq<Bucket>, pos: seq<nat>, prior: Bucket, recent: Bucket)
    requires AllBehind(shadows, pos, prior + recent) && |prior| + |recent| > 0
    ensures var (e, o, n) := Next(prior, recent); AllBehind(shadows, pos, [e]) && AllBehind(shadows, pos, o + n)
  {
    var (e, o, n) := Next(prior, recent);
    assert e in prior + recent;
    forall s, i, j | 0 <= s < |shadows| && 0 <= i < pos[s] && 0 <= j < |o + n|
      ensures Less(shadows[s][i], (o + n)[j])
    {
      assert Behind(shadows[s], pos[s], prior + recent);
      assert (o + n)[j] in prior + recent;
    }
    forall s, i | 0 <= s < |shadows| && 0 <= i < pos[s] ensures Less(shadows[s][i], e) {
      assert Behind(shadows[s], pos[s], prior + recent);
    }
  }

  lemma StartBehind(shadows: seq<Bucket>, pos: seq<nat>, rest: Bucket)
    requires pos == seq(|shadows|, _ => 0)
    ensures AllBehind(shadows, pos, rest)
  {
  }

  lemma MergeOfNone(shadows: seq<Bucket>)
    ensures Merge([], [], shadows) == []
  {
  }

  /** The next candidate: the smaller entry, or the newer of two with the same key. */
  method TakeNext(prior: Bucket, oi: nat, recent: Bucket, ni: nat) returns (e: BucketEntry, oi': nat, ni': nat)
    requires oi <= |prior| && ni <= |recent| && (oi < |prior| || ni < |recent|)
    ensures oi <= oi' <= |prior| && ni <= ni' <= |recent| && oi + ni < oi' + ni'
    ensures Next(prior[oi..], recent[ni..]) == (e, prior[oi'..], recent[ni'..])
  {
    hide Less;
    if ni == |recent| {
      return prior[oi], oi + 1, ni;
    } else if oi == |prior| {
      return recent[ni], oi, ni + 1;
    } else if Less(prior[oi], recent[ni]) {
      return prior[oi], oi + 1, ni;
    } else if Less(recent[ni], prior[oi]) {
      return recent[ni], oi, ni + 1;
    } else {
      return recent[ni], oi + 1, ni + 1;
    }
  }

  /** The single-pass merge with forward-only iterators. */
  method MergeBuckets(prior: Bucket, recent: Bucket, shadows: seq<Bucket>) returns (out: Bucket)
    requires Sorted(prior) && Sorted(recent) && forall s :: 0 <= s < |shadows| ==> Sorted(shadows[s])
    ensures out == Merge(prior, recent, shadows)
    ensures Sorted(out)
  {
    hide Less, AllBehind, AllAbove, Merge, Sorted, Shadowed, Id;
    out := [];
    var oi, ni := 0, 0;
    var pos: seq<nat> := seq(|shadows|, _ => 0);
    StartBehind(shadows, pos, prior + recent);
    assert prior[0..] == prior && recent[0..] == recent;
    while oi < |prior| || ni < |recent|
      invariant 0 <= oi <= |prior| && 0 <= ni <= |recent|
      invariant Sorted(prior[oi..]) && Sorted(recent[ni..])
      invariant AllBehind(shadows, pos, prior[oi..] + recent[ni..])
      invariant out + Merge(prior[oi..], recent[ni..], shadows) == Merge(prior, recent, shadows)
      decreases |prior| - oi + |recent| - ni
    {
      ghost var o, n := prior[oi..], recent[ni..];
      NextIsLeast(o, n);
      MergeUnfolds(o, n, shadows);
      BehindSuffix(shadows, pos, o, n);
      var e;
      e, oi, ni := TakeNext(prior, oi, recent, ni);
      var put;
      put, pos := MaybePut(e, shadows, pos, prior[oi..] + recent[ni..]);
      if put {
        out := out + [e];
      }
    }
    MergeOfNone(shadows);
    MergeSorted(prior, recent, shadows);
  }

  // ---------------------------------------------------------------- fresh buckets

  predicate DistinctIds(b: Bucket)
  {
    forall i, j :: 0 <= i < j < |b| ==> Id(b[i]) != Id(b[j])
  }

  function Insert(e: BucketEntry, b: Bucket): Bucket
  {
    if |b| == 0 || Less(e, b[0]) then [e] + b else [b[0]] + Insert(e, b[1..])
  }

  function Sort(b: Bucket): Bucket
  {
    if |b| == 0 then [] else Insert(b[0], Sort(b[1..]))
  }

  lemma {:induction false} InsertSorted(e: BucketEntry, b: Bucket)
    requires Sorted(b) && !Contains(b, Id(e))
    ensures Sorted(Insert(e, b))
    ensures forall x :: x in Insert(e, b) <==> x == e || x in b
    ensures forall k :: Find(Insert(e, b), k) == if k == Id(e) then Some(e) else Find(b, k)
  {
    if |b| == 0 {
    } else if Less(e, b[0]) {
      forall i | 0 <= i < |b| ensures Less(e, b[i]) {
        if i > 0 { KeyOrderIsTotal(Id(e), Id(b[0]), Id(b[i])); }
      }
      assert ([e] + b)[1..] == b;
    } else {
      SortedTail(b);
      assert forall i :: 0 <= i < |b[1..]| ==> b[1..][i] == b[i + 1];
      KeyOrderIsTotal(Id(e), Id(b[0]), Id(e));
      InsertSorted(e, b[1..]);
      var tail := Insert(e, b[1..]);
      assert ([b[0]] + tail)[1..] == tail;
      forall i | 0 <= i < |tail| ensures Less(b[0], tail[i]) {
        assert tail[i] in tail;
      }
      assert forall x :: x in b <==> x == b[0] || x in b[1..];
    }
  }

  /** Sorting entries with distinct keys gives a sorted bucket that answers every key alike. */
  lemma {:induction false} SortCorrect(b: Bucket)
    requires DistinctIds(b)
    ensures Sorted(Sort(b))
    ensures forall x :: x in Sort(b) <==> x in b
    ensures forall k :: Find(Sort(b), k) == Find(b, k)
  {
    if |b| != 0 {
      SortCorrect(b[1..]);
      var tail := Sort(b[1..]);
      assert !Contains(tail, Id(b[0])) by {
        forall i | 0 <= i < |tail| ensures Id(tail[i]) != Id(b[0]) {
          assert tail[i] in b[1..];
        }
      }
      InsertSorted(b[0], tail);
      assert forall x :: x in b <==> x == b[0] || x in b[1..];
    }
  }

  function LiveEntries(entries: seq<LedgerEntry>): Bucket
  {
    seq(|entries|, i requires 0 <= i < |entries| => Live(entries[i]))
  }

  function DeadEntries(keys: seq<LedgerKey>): Bucket
  {
    seq(|keys|, i requires 0 <= i < |keys| => Dead(keys[i]))
  }

  /** The bucket of one ledger close: sorted live entries overridden by sorted tombstones. */
  function Fresh(live: seq<LedgerEntry>, dead: seq<LedgerKey>): Bucket
  {
    Merge(Sort(LiveEntries(live)), Sort(DeadEntries(dead)), [])
  }

  /** A fresh bucket is sorted; it holds a tombstone for every dead key and, for the other keys,
      the live entry of that key if there is one. */
  lemma FreshCorrect(live: seq<LedgerEntry>, dead: seq<LedgerKey>, k: LedgerKey)
    requires DistinctIds(LiveEntries(live)) && DistinctIds(DeadEntries(dead))
    ensures Sorted(Fresh(live, dead))
    ensures Find(Fresh(live, dead), k) ==
            if k in dead then Some(Dead(k)) else Find(LiveEntries(live), k)
  {
    var l, d := LiveEntries(live), DeadEntries(dead);
    SortCorrect(l);
    SortCorrect(d);
    MergeSorted(Sort(l), Sort(d), []);
    FindMerge(Sort(l), Sort(d), [], k);
    FindIff(d, k);
    if k in dead {
      var i :| 0 <= i < |dead| && dead[i] == k;
      assert Id(d[i]) == k;
    } else {
      assert forall i :: 0 <= i < |d| ==> Id(d[i]) == dead[i];
    }
  }
}
