/** Transaction sets: the order of application, trimming and validity. */
module TxSets {

  /** A transaction as the set sees it; `id` is the object's identity. */
  datatype Tx = Tx(id: nat, source: nat, seqNum: nat, fullHash: nat)

  /** What the set asks of the rest of the system. */
  datatype Ledger = Ledger(
    lastClosedHash: nat,
    valid: (Tx, nat) -> bool,
    fee: Tx -> int,
    balance: nat -> int,
    minimumBalance: nat -> int,
    contentsHash: (nat, seq<Tx>) -> nat,
    mix: (nat, nat) -> nat)

  // ---------------------------------------------------------------- an account's transactions

  /** The transactions of one account, in the order of the list. */
  function Of(txs: seq<Tx>, a: nat): seq<Tx>
  {
    if |txs| == 0 then [] else Of(txs[..|txs| - 1], a) + (if txs[|txs| - 1].source == a then [txs[|txs| - 1]] else [])
  }

  lemma {:induction false} OfAppend(p: seq<Tx>, q: seq<Tx>, a: nat)
    ensures Of(p + q, a) == Of(p, a) + Of(q, a)
  {
    if |q| == 0 {
      assert p + q == p;
    } else {
      var front := q[..|q| - 1];
      OfAppend(p, front, a);
      assert (p + q)[..|p + q| - 1] == p + front;
    }
  }

  lemma OfSnoc(p: seq<Tx>, t: Tx, a: nat)
    ensures Of(p + [t], a) == if t.source == a then Of(p, a) + [t] else Of(p, a)
  {
    assert (p + [t])[..|p|] == p;
  }

  lemma {:induction false} OfCount(txs: seq<Tx>, a: nat, t: Tx)
    ensures multiset(Of(txs, a))[t] == if t.source == a then multiset(txs)[t] else 0
  {
    if |txs| > 0 {
      var front, last := txs[..|txs| - 1], txs[|txs| - 1];
      OfCount(front, a, t);
      assert txs == front + [last];
      OfSnoc(front, last, a);
      hide Of;
      SameSnoc(front, last);
      SameSnoc(Of(front, a), last);
    }
  }

  lemma SameSnoc(txs: seq<Tx>, t: Tx)
    ensures multiset(txs + [t]) == multiset(txs) + multiset{t}
  {
  }

  lemma OfMember(txs: seq<Tx>, a: nat, t: Tx)
    ensures t in Of(txs, a) <==> t in txs && t.source == a
  {
    OfCount(txs, a, t);
    assert t in Of(txs, a) <==> multiset(Of(txs, a))[t] > 0;
    assert t in txs <==> multiset(txs)[t] > 0;
  }

  /** Two lists that agree account by account hold the same transactions. */
  lemma SameByAccount(p: seq<Tx>, q: seq<Tx>)
    requires forall a :: multiset(Of(p, a)) == multiset(Of(q, a))
    ensures multiset(p) == multiset(q)
  {
    forall t ensures multiset(p)[t] == multiset(q)[t] {
      OfCount(p, t.source, t);
      OfCount(q, t.source, t);
      assert multiset(Of(p, t.source)) == multiset(Of(q, t.source));
    }
  }

  lemma SameOf(p: seq<Tx>, q: seq<Tx>, a: nat)
    requires multiset(p) == multiset(q)
    ensures multiset(Of(p, a)) == multiset(Of(q, a))
  {
    forall t ensures multiset(Of(p, a))[t] == multiset(Of(q, a))[t] {
      OfCount(p, a, t);
      OfCount(q, a, t);
    }
  }

  lemma SameMembers(p: seq<Tx>, q: seq<Tx>)
    requires multiset(p) == multiset(q)
    ensures |p| == |q| && forall t :: t in p <==> t in q
  {
    assert |multiset(p)| == |multiset(q)|;
    forall t ensures t in p <==> t in q {
      assert t in p <==> t in multiset(p);
      assert t in q <==> t in multiset(q);
    }
  }

  // ---------------------------------------------------------------- sorting

  /** The three orders: by sequence number, by hash, and by the hash mixed with the set's hash. */
  datatype Order = BySeq | ByHash | ByMix(mix: (nat, nat) -> nat, setHash: nat)

  function Key(o: Order, t: Tx): nat
  {
    match o
    case BySeq => t.seqNum
    case ByHash => t.fullHash
    case ByMix(mix, setHash) => mix(setHash, t.fullHash)
  }

  ghost predicate SortedBy(txs: seq<Tx>, o: Order)
  {
    forall i, j :: 0 <= i < j < |txs| ==> Key(o, txs[i]) <= Key(o, txs[j])
  }

  lemma SortedAround(p: seq<Tx>, q: seq<Tx>, o: Order)
    requires SortedBy(p, o) && SortedBy(q, o)
    requires forall t, u :: t in p && u in q ==> Key(o, t) <= Key(o, u)
    ensures SortedBy(p + q, o)
  {
    hide Key;
    forall i, j | 0 <= i < j < |p + q| ensures Key(o, (p + q)[i]) <= Key(o, (p + q)[j]) {
      if i < |p| <= j {
        assert p[i] in p && q[j - |p|] in q;
      }
    }
  }

  lemma SortedAt(txs: seq<Tx>, o: Order, i: nat)
    requires SortedBy(txs, o) && i <= |txs|
    ensures SortedBy(txs[..i], o) && SortedBy(txs[i..], o)
    ensures forall t, u :: t in txs[..i] && u in txs[i..] ==> Key(o, t) <= Key(o, u)
  {
    hide Key;
  }

  lemma SplitAt(txs: seq<Tx>, i: nat)
    requires i < |txs|
    ensures multiset(txs) == multiset(txs[..i]) + multiset{txs[i]} + multiset(txs[i + 1..])
  {
    assert txs == txs[..i] + [txs[i]] + txs[i + 1..];
  }

  /** Placing a transaction behind those that are not above it. */
  method Insert(txs: seq<Tx>, o: Order, t: Tx) returns (r: seq<Tx>)
    requires SortedBy(txs, o)
    ensures multiset(r) == multiset(txs) + multiset{t} && SortedBy(r, o)
  {
    hide Key, SortedBy;
    var p := |txs|;
    while p > 0 && Key(o, t) < Key(o, txs[p - 1])
      invariant 0 <= p <= |txs|
      invariant forall i :: p <= i < |txs| ==> Key(o, t) <= Key(o, txs[i])
    {
      p := p - 1;
    }
    InsertedSorted(txs, o, t, p);
    assert txs == txs[..p] + txs[p..];
    r := txs[..p] + ([t] + txs[p..]);
  }

  lemma InsertedSorted(txs: seq<Tx>, o: Order, t: Tx, p: nat)
    requires SortedBy(txs, o) && p <= |txs|
    requires forall i :: p <= i < |txs| ==> Key(o, t) <= Key(o, txs[i])
    requires p > 0 ==> Key(o, txs[p - 1]) <= Key(o, t)
    ensures SortedBy(txs[..p] + ([t] + txs[p..]), o)
  {
    hide Key;
    forall i | 0 <= i < p ensures Key(o, txs[i]) <= Key(o, t) {
      assert i < p - 1 ==> Key(o, txs[i]) <= Key(o, txs[p - 1]);
    }
    SortedAt(txs, o, p);
    SortedOne(t, o);
    hide SortedBy;
    SortedAround([t], txs[p..], o);
    SortedAround(txs[..p], [t] + txs[p..], o);
  }

  /** Sorting; the order of transactions with equal keys is left open. */
  method Sorted(txs: seq<Tx>, o: Order) returns (r: seq<Tx>)
    ensures multiset(r) == multiset(txs) && SortedBy(r, o)
  {
    hide SortedBy;
    r := [];
    SortedNone(o);
    for n := 0 to |txs|
      invariant multiset(r) == multiset(txs[..n]) && SortedBy(r, o)
    {
      assert txs[..n + 1] == txs[..n] + [txs[n]];
      r := Insert(r, o, txs[n]);
    }
    assert txs[..|txs|] == txs;
  }

  lemma SortedNone(o: Order)
    ensures SortedBy([], o)
  {
  }

  // ---------------------------------------------------------------- order of application

  /** How many transactions of the same account come before position `i`. */
  function Rank(txs: seq<Tx>, i: nat): nat
    requires i < |txs|
  {
    |Of(txs[..i], txs[i].source)|
  }

  /** Every account's i-th transaction comes before every account's (i+1)-th. */
  ghost predicate Layered(txs: seq<Tx>)
  {
    forall i, j :: 0 <= i < j < |txs| ==> Rank(txs, i) <= Rank(txs, j)
  }

  /** Batch `v` of the list: each account's v-th transaction, if it has one. */
  ghost predicate IsBatch(batch: seq<Tx>, txs: seq<Tx>, v: nat)
  {
    forall a :: Of(batch, a) == if v < |Of(txs, a)| then [Of(txs, a)[v]] else []
  }

  function Take(s: seq<Tx>, n: nat): seq<Tx>
  {
    if n <= |s| then s[..n] else s
  }

  /** The first `v` batches, in batch order. */
  ghost predicate HoldsBatches(r: seq<Tx>, txs: seq<Tx>, v: nat)
  {
    forall a :: Of(r, a) == Take(Of(txs, a), v)
  }

  /** Placing one more transaction of the list into its batch. */
  lemma PlaceOne(batch: seq<Tx>, txs: seq<Tx>, t: Tx, v: nat)
    requires IsBatch(batch, txs, v)
    ensures v == |Of(txs, t.source)| ==> IsBatch(batch + [t], txs + [t], v)
    ensures v != |Of(txs, t.source)| ==> IsBatch(batch, txs + [t], v)
  {
    forall a ensures v == |Of(txs, t.source)| ==>
                       Of(batch + [t], a) == if v < |Of(txs + [t], a)| then [Of(txs + [t], a)[v]] else []
    {
      OfSnoc(batch, t, a);
      OfSnoc(txs, t, a);
    }
    forall a ensures v != |Of(txs, t.source)| ==>
                       Of(batch, a) == if v < |Of(txs + [t], a)| then [Of(txs + [t], a)[v]] else []
    {
      OfSnoc(txs, t, a);
    }
  }

  /** Reordering a batch keeps it a batch. */
  lemma ReorderedBatch(batch: seq<Tx>, other: seq<Tx>, txs: seq<Tx>, v: nat)
    requires IsBatch(batch, txs, v) && multiset(batch) == multiset(other)
    ensures IsBatch(other, txs, v)
  {
    forall a ensures Of(other, a) == Of(batch, a) {
      SameOf(batch, other, a);
      SameMembers(Of(batch, a), Of(other, a));
      if |Of(other, a)| == 1 {
        assert Of(other, a)[0] in Of(batch, a);
      }
    }
  }

  lemma AppendBatch(r: seq<Tx>, batch: seq<Tx>, txs: seq<Tx>, v: nat)
    requires HoldsBatches(r, txs, v) && IsBatch(batch, txs, v)
    ensures HoldsBatches(r + batch, txs, v + 1)
  {
    forall a ensures Of(r + batch, a) == Take(Of(txs, a), v + 1) {
      OfAppend(r, batch, a);
      TakeOneMore(Of(txs, a), v);
    }
  }

  lemma TakeOneMore(s: seq<Tx>, v: nat)
    ensures Take(s, v + 1) == Take(s, v) + if v < |s| then [s[v]] else []
  {
  }

  lemma RankInBatch(r: seq<Tx>, batch: seq<Tx>, txs: seq<Tx>, v: nat, i: nat)
    requires HoldsBatches(r, txs, v) && IsBatch(batch, txs, v) && i < |batch|
    ensures Rank(r + batch, |r| + i) == v
  {
    var a := batch[i].source;
    hide Of;
    assert (r + batch)[..|r| + i] == r + batch[..i] && (r + batch)[|r| + i] == batch[i];
    OfAppend(r, batch[..i], a);
    FirstOf(batch, i, a);
    assert |Of(batch, a)| <= 1;
  }

  /** In a list with one transaction of the account at most, none comes before it. */
  lemma FirstOf(batch: seq<Tx>, i: nat, a: nat)
    requires i < |batch| && batch[i].source == a
    ensures |Of(batch, a)| > |Of(batch[..i], a)|
  {
    assert batch == batch[..i] + [batch[i]] + batch[i + 1..];
    OfSnoc(batch[..i], batch[i], a);
    OfAppend(batch[..i] + [batch[i]], batch[i + 1..], a);
  }

  lemma RankInPrefix(r: seq<Tx>, batch: seq<Tx>, i: nat)
    requires i < |r|
    ensures Rank(r + batch, i) == Rank(r, i)
  {
    assert (r + batch)[..i] == r[..i];
  }

  /** Appending batch `v` to the earlier ones keeps the layers in order. */
  lemma AppendLayered(r: seq<Tx>, batch: seq<Tx>, txs: seq<Tx>, v: nat)
    requires HoldsBatches(r, txs, v) && IsBatch(batch, txs, v)
    requires Layered(r) && forall i :: 0 <= i < |r| ==> Rank(r, i) < v
    ensures Layered(r + batch) && forall i :: 0 <= i < |r + batch| ==> Rank(r + batch, i) < v + 1
  {
    hide IsBatch, HoldsBatches, Rank;
    forall i | 0 <= i < |r + batch| ensures Rank(r + batch, i) == if i < |r| then Rank(r, i) else v {
      if i < |r| {
        RankInPrefix(r, batch, i);
      } else {
        RankInBatch(r, batch, txs, v, i - |r|);
      }
    }
  }

  /** Transactions of one layer are in ascending order of their keys. */
  ghost predicate WithinLayers(txs: seq<Tx>, o: Order)
  {
    forall i, j :: 0 <= i < j < |txs| && Rank(txs, i) == Rank(txs, j) ==> Key(o, txs[i]) <= Key(o, txs[j])
  }

  lemma AppendWithin(r: seq<Tx>, batch: seq<Tx>, txs: seq<Tx>, v: nat, o: Order)
    requires HoldsBatches(r, txs, v) && IsBatch(batch, txs, v)
    requires WithinLayers(r, o) && SortedBy(batch, o) && forall i :: 0 <= i < |r| ==> Rank(r, i) < v
    ensures WithinLayers(r + batch, o)
  {
    hide IsBatch, HoldsBatches, Rank, Key;
    var all := r + batch;
    forall i | 0 <= i < |all| ensures Rank(all, i) == if i < |r| then Rank(r, i) else v {
      if i < |r| {
        RankInPrefix(r, batch, i);
      } else {
        RankInBatch(r, batch, txs, v, i - |r|);
      }
    }
  }

  /** The batches of the list: an array of lists that grows by four beyond the count it meets. */
  method Batches(txs: seq<Tx>) returns (batches: seq<seq<Tx>>)
    ensures forall v :: 0 <= v < |batches| ==> IsBatch(batches[v], txs, v)
    ensures forall a :: |Of(txs, a)| <= |batches|
    ensures |batches| >= 4
  {
    hide IsBatch;
    batches := [[], [], [], []];
    var counts: map<nat, nat> := map[];
    forall v ensures IsBatch([], txs[..0], v) {
      NoBatch(v);
    }
    assert txs[..0] == [];
    for n := 0 to |txs|
      invariant forall v :: 0 <= v < |batches| ==> IsBatch(batches[v], txs[..n], v)
      invariant forall a :: |Of(txs[..n], a)| == if a in counts then counts[a] else 0
      invariant forall a :: |Of(txs[..n], a)| <= |batches|
      invariant |batches| >= 4
    {
      var t := txs[n];
      var v := if t.source in counts then counts[t.source] else 0;
      assert v == |Of(txs[..n], t.source)|;
      if v >= |batches| {
        forall w | |batches| <= w ensures IsBatch([], txs[..n], w) {
          BatchBeyond(txs[..n], w);
        }
        batches := batches + seq(v + 4 - |batches|, _ => []);
      }
      assert txs[..n + 1] == txs[..n] + [t];
      forall w | 0 <= w < |batches|
        ensures IsBatch(if w == v then batches[w] + [t] else batches[w], txs[..n + 1], w)
      {
        PlaceOne(batches[w], txs[..n], t, w);
      }
      forall a ensures |Of(txs[..n + 1], a)| == |Of(txs[..n], a)| + if a == t.source then 1 else 0 {
        OfSnoc(txs[..n], t, a);
      }
      batches := batches[v := batches[v] + [t]];
      counts := counts[t.source := v + 1];
    }
    assert txs[..|txs|] == txs;
  }

  lemma NoBatch(v: nat)
    ensures IsBatch([], [], v)
  {
  }

  lemma BatchBeyond(txs: seq<Tx>, w: nat)
    requires forall a :: |Of(txs, a)| <= w
    ensures IsBatch([], txs, w)
  {
  }

  lemma AllBatches(r: seq<Tx>, txs: seq<Tx>, v: nat)
    requires HoldsBatches(r, txs, v) && forall a :: |Of(txs, a)| <= v
    ensures forall a :: Of(r, a) == Of(txs, a)
    ensures multiset(r) == multiset(txs)
  {
    hide Of;
    forall a ensures Of(r, a) == Of(txs, a) {
      assert |Of(txs, a)| <= v;
      assert Take(Of(txs, a), v) == Of(txs, a);
    }
    SameByAccount(r, txs);
  }

  lemma {:induction false} SortedOf(txs: seq<Tx>, a: nat)
    requires SortedBy(txs, BySeq)
    ensures SortedBy(Of(txs, a), BySeq)
  {
    if |txs| > 0 {
      var front := txs[..|txs| - 1];
      SortedOf(front, a);
      forall t | t in Of(front, a) ensures Key(BySeq, t) <= Key(BySeq, txs[|txs| - 1]) {
        OfMember(front, a, t);
        var i :| 0 <= i < |front| && front[i] == t;
        assert txs[i] == t;
      }
      var o := Of(txs, a);
      forall i, j | 0 <= i < j < |o| ensures Key(BySeq, o[i]) <= Key(BySeq, o[j]) {
        assert o[i] in Of(front, a);
      }
    }
  }

  // ---------------------------------------------------------------- validity

  /** Each transaction is valid after the one before it; 0 stands for the account's own number. */
  predicate Chain(l: Ledger, txs: seq<Tx>, last: nat)
  {
    |txs| == 0 || (l.valid(txs[0], last) && Chain(l, txs[1..], txs[0].seqNum))
  }

  function Fees(l: Ledger, txs: seq<Tx>): int
  {
    if |txs| == 0 then 0 else l.fee(txs[0]) + Fees(l, txs[1..])
  }

  predicate Affordable(l: Ledger, a: nat, txs: seq<Tx>)
  {
    |txs| > 0 ==> l.balance(a) - Fees(l, txs) >= l.minimumBalance(a)
  }

  predicate AccountOK(l: Ledger, a: nat, txs: seq<Tx>)
  {
    Chain(l, txs, 0) && Affordable(l, a, txs)
  }

  /** `p` is the list `txs` in some order of ascending sequence numbers. */
  ghost predicate Orders(p: seq<Tx>, txs: seq<Tx>)
  {
    multiset(p) == multiset(txs) && SortedBy(p, BySeq)
  }

  /** The set is valid: right predecessor, hash order, and every account's transactions chain up
      and are affordable, whichever order equal sequence numbers are met in. */
  ghost predicate ValidSet(l: Ledger, previous: nat, txs: seq<Tx>)
  {
    && previous == l.lastClosedHash
    && SortedBy(txs, ByHash)
    && forall a, p :: Orders(p, Of(txs, a)) ==> AccountOK(l, a, p)
  }

  /** The fees of the first `n` transactions. */
  function FeeSum(l: Ledger, txs: seq<Tx>, n: nat): int
    requires n <= |txs|
  {
    if n == 0 then 0 else FeeSum(l, txs, n - 1) + l.fee(txs[n - 1])
  }

  lemma {:induction false} FeeSumTail(l: Ledger, txs: seq<Tx>, n: nat)
    requires 0 < n <= |txs|
    ensures FeeSum(l, txs, n) == l.fee(txs[0]) + FeeSum(l, txs[1..], n - 1)
  {
    if n > 1 {
      FeeSumTail(l, txs, n - 1);
    }
  }

  lemma {:induction false} FeesMeans(l: Ledger, txs: seq<Tx>)
    ensures Fees(l, txs) == FeeSum(l, txs, |txs|)
  {
    if |txs| > 0 {
      FeesMeans(l, txs[1..]);
      FeeSumTail(l, txs, |txs|);
    }
  }

  function NumberBefore(txs: seq<Tx>, i: nat, last: nat): nat
    requires i < |txs|
  {
    if i == 0 then last else txs[i - 1].seqNum
  }

  /** Every transaction is valid after its predecessor, the first after `last`. */
  ghost predicate EachValid(l: Ledger, txs: seq<Tx>, last: nat)
  {
    forall i :: 0 <= i < |txs| ==> l.valid(txs[i], NumberBefore(txs, i, last))
  }

  lemma {:induction false} ChainMeans(l: Ledger, txs: seq<Tx>, last: nat)
    ensures Chain(l, txs, last) <==> EachValid(l, txs, last)
    decreases |txs|
  {
    if |txs| > 0 {
      var rest, n := txs[1..], txs[0].seqNum;
      ChainMeans(l, rest, n);
      if l.valid(txs[0], last) && EachValid(l, rest, n) {
        forall i | 0 <= i < |txs| ensures l.valid(txs[i], NumberBefore(txs, i, last)) {
          assert i > 0 ==> txs[i] == rest[i - 1];
        }
      }
      if EachValid(l, txs, last) {
        forall i | 0 <= i < |rest| ensures l.valid(rest[i], NumberBefore(rest, i, n)) {
          assert rest[i] == txs[i + 1];
        }
        assert l.valid(txs[0], NumberBefore(txs, 0, last));
      }
    }
  }

  /** Each transaction is valid after its predecessor, and the balance covers all the fees and the
      minimum balance, if there is anything to pay. */
  ghost predicate Sound(l: Ledger, a: nat, txs: seq<Tx>)
  {
    EachValid(l, txs, 0) && (|txs| > 0 ==> l.balance(a) >= l.minimumBalance(a) + FeeSum(l, txs, |txs|))
  }

  lemma AccountMeans(l: Ledger, a: nat, txs: seq<Tx>)
    ensures AccountOK(l, a, txs) <==> Sound(l, a, txs)
  {
    hide Chain, EachValid, Fees, FeeSum;
    ChainMeans(l, txs, 0);
    FeesMeans(l, txs);
  }

  lemma HashOrderMeans(txs: seq<Tx>)
    ensures SortedBy(txs, ByHash) <==> forall i, j :: 0 <= i < j < |txs| ==> txs[i].fullHash <= txs[j].fullHash
  {
    assert forall t :: Key(ByHash, t) == t.fullHash;
  }

  /** Validity of a set, spelled out: it names the last closed ledger, its hashes ascend, and the
      transactions of every account are sound in the order of their numbers. */
  lemma ValidSetIff(l: Ledger, previous: nat, txs: seq<Tx>)
    ensures ValidSet(l, previous, txs) <==>
            && previous == l.lastClosedHash
            && (forall i, j :: 0 <= i < j < |txs| ==> txs[i].fullHash <= txs[j].fullHash)
            && forall a, p :: Orders(p, Of(txs, a)) ==> Sound(l, a, p)
  {
    hide Orders, AccountOK, Sound, SortedBy, Of;
    HashOrderMeans(txs);
    forall a, p ensures AccountOK(l, a, p) <==> Sound(l, a, p) {
      AccountMeans(l, a, p);
    }
  }

  /** No transaction is valid right after its own sequence number (0 excepted, as 0 stands for
      the number stored in the account). */
  ghost predicate RejectsRepeats(l: Ledger)
  {
    forall t: Tx :: l.valid(t, t.seqNum) ==> t.seqNum == 0
  }

  const SEQ_LIMIT := 0x1_0000_0000_0000_0000

  /** The sequence number test of a transaction, on 64-bit numbers. */
  predicate SeqAccepted(accountSeq: nat, current: nat, seqNum: nat)
  {
    ((if current == 0 then accountSeq else current) + 1) % SEQ_LIMIT == seqNum
  }

  /** The real test meets the demand, wrap-around included. */
  lemma SeqTestRejectsRepeats(l: Ledger, seqOf: nat -> nat)
    requires forall t, last: nat :: l.valid(t, last) ==> last < SEQ_LIMIT && SeqAccepted(seqOf(t.source), last, t.seqNum)
    ensures RejectsRepeats(l)
  {
    forall t: Tx | l.valid(t, t.seqNum) ensures t.seqNum == 0 {
      assert SeqAccepted(seqOf(t.source), t.seqNum, t.seqNum);
    }
  }

  /** With the real test, and nothing else asked, an account's transactions chain up exactly when
      their numbers continue the account's without a gap. */
  lemma {:induction false} ChainIsConsecutive(l: Ledger, txs: seq<Tx>, last: nat, seqOf: nat)
    requires forall t, cur: nat :: t in txs ==> (l.valid(t, cur) <==> SeqAccepted(seqOf, cur, t.seqNum))
    requires seqOf <= last || last == 0
    requires (if last == 0 then seqOf else last) + |txs| < SEQ_LIMIT
    ensures Chain(l, txs, last) <==>
            forall i :: 0 <= i < |txs| ==> txs[i].seqNum == (if last == 0 then seqOf else last) + 1 + i
    decreases |txs|
  {
    if |txs| > 0 {
      var start, rest := if last == 0 then seqOf else last, txs[1..];
      assert txs[0] in txs;
      Successor(start);
      if txs[0].seqNum == start + 1 {
        assert forall t :: t in rest ==> t in txs;
        ChainIsConsecutive(l, rest, start + 1, seqOf);
        assert forall i :: 0 <= i < |rest| ==> rest[i] == txs[i + 1];
        if forall i :: 0 <= i < |rest| ==> rest[i].seqNum == start + 2 + i {
          forall i | 0 <= i < |txs| ensures txs[i].seqNum == start + 1 + i {
            assert i > 0 ==> txs[i] == rest[i - 1];
          }
        }
      }
    }
  }

  lemma Successor(n: nat)
    requires n + 1 < SEQ_LIMIT
    ensures (n + 1) % SEQ_LIMIT == n + 1
  {
  }

  function Without(txs: seq<Tx>, i: nat): seq<Tx>
    requires i < |txs|
  {
    txs[..i] + txs[i + 1..]
  }

  lemma WithoutSame(txs: seq<Tx>, i: nat)
    requires i < |txs|
    ensures multiset(Without(txs, i)) == multiset(txs) - multiset{txs[i]}
  {
    SplitAt(txs, i);
  }

  lemma WithoutSorted(txs: seq<Tx>, i: nat)
    requires i < |txs| && SortedBy(txs, BySeq)
    ensures SortedBy(Without(txs, i), BySeq)
  {
    SortedAt(txs, BySeq, i);
    SortedAt(txs, BySeq, i + 1);
    assert forall u :: u in txs[i + 1..] ==> u in txs[i..];
    SortedAround(txs[..i], txs[i + 1..], BySeq);
  }

  lemma {:induction false} FeesWithout(l: Ledger, txs: seq<Tx>, i: nat)
    requires i < |txs|
    ensures Fees(l, txs) == l.fee(txs[i]) + Fees(l, Without(txs, i))
  {
    if i == 0 {
      assert Without(txs, 0) == txs[1..];
    } else {
      FeesWithout(l, txs[1..], i - 1);
      assert Without(txs, i)[1..] == Without(txs[1..], i - 1);
    }
  }

  lemma {:induction false} FeesPermute(l: Ledger, p: seq<Tx>, q: seq<Tx>)
    requires multiset(p) == multiset(q)
    ensures Fees(l, p) == Fees(l, q)
    decreases |q|
  {
    SameMembers(p, q);
    if |q| > 0 {
      assert q[0] in p;
      var j :| 0 <= j < |p| && p[j] == q[0];
      FeesWithout(l, p, j);
      WithoutSame(p, j);
      hide Without;
      TailSame(q);
      FeesPermute(l, Without(p, j), q[1..]);
    }
  }

  /** All transactions up to `j` carry number 0: dropping the j-th leaves a chain. */
  lemma {:induction false} ChainWithout(l: Ledger, p: seq<Tx>, j: nat)
    requires Chain(l, p, 0) && j < |p| && forall i :: 0 <= i <= j ==> p[i].seqNum == 0
    ensures l.valid(p[j], 0) && Chain(l, Without(p, j), 0)
  {
    if j == 0 {
      assert Without(p, 0) == p[1..];
    } else {
      ChainWithout(l, p[1..], j - 1);
      assert Without(p, j)[1..] == Without(p[1..], j - 1);
      assert Without(p, j)[0] == p[0];
    }
  }

  /** Equal sequence numbers in a chain are all 0. */
  lemma RepeatsAreZero(l: Ledger, p: seq<Tx>, last: nat, j: nat)
    requires RejectsRepeats(l) && Chain(l, p, last) && SortedBy(p, BySeq)
    requires 0 < j < |p| && p[j].seqNum == p[0].seqNum
    ensures forall i :: 0 <= i <= j ==> p[i].seqNum == 0
  {
    assert Key(BySeq, p[0]) <= Key(BySeq, p[1]);
    assert j == 1 || Key(BySeq, p[1]) <= Key(BySeq, p[j]);
    assert p[1..][0] == p[1];
    assert l.valid(p[1], p[1].seqNum);
    forall i | 0 <= i <= j ensures p[i].seqNum == 0 {
      assert i == j || Key(BySeq, p[i]) <= Key(BySeq, p[j]);
    }
  }

  lemma TailSame(q: seq<Tx>)
    requires |q| > 0
    ensures multiset(q[1..]) == multiset(q) - multiset{q[0]}
  {
    assert q == [q[0]] + q[1..];
  }

  lemma SameCons(t: Tx, txs: seq<Tx>)
    ensures multiset([t] + txs) == multiset{t} + multiset(txs)
    ensures forall u :: u in [t] + txs <==> u == t || u in txs
  {
  }

  lemma SortedTail(q: seq<Tx>)
    requires |q| > 0 && SortedBy(q, BySeq)
    ensures SortedBy(q[1..], BySeq) && forall t :: t in q ==> q[0].seqNum <= t.seqNum
  {
    forall i | 0 <= i < |q| ensures q[0].seqNum <= q[i].seqNum {
      assert i == 0 || Key(BySeq, q[0]) <= Key(BySeq, q[i]);
    }
  }

  /** The order met among equal sequence numbers does not matter to a chain. */
  lemma {:induction false} ChainPermute(l: Ledger, p: seq<Tx>, q: seq<Tx>, last: nat)
    requires RejectsRepeats(l) && Chain(l, p, last)
    requires multiset(p) == multiset(q) && SortedBy(p, BySeq) && SortedBy(q, BySeq)
    requires forall t :: t in p ==> last <= t.seqNum
    ensures Chain(l, q, last)
    decreases |q|
  {
    hide Chain, Without, RejectsRepeats, SortedBy;
    SameMembers(p, q);
    if |q| > 0 {
      assert q[0] in p && p[0] in q;
      var j :| 0 <= j < |p| && p[j] == q[0];
      SortedTail(p);
      SortedTail(q);
      TailSame(q);
      ChainUnfolds(l, p, last);
      ChainUnfolds(l, q, last);
      var rest := if j == 0 then p[1..] else Without(p, j);
      if j == 0 {
        TailSame(p);
      } else {
        RepeatsAreZero(l, p, last, j);
        ChainWithout(l, p, j);
        WithoutSame(p, j);
        WithoutSorted(p, j);
      }
      SameMembers(rest, q[1..]);
      assert forall t :: t in q[1..] ==> t in q;
      ChainPermute(l, rest, q[1..], q[0].seqNum);
    }
  }

  lemma ChainUnfolds(l: Ledger, p: seq<Tx>, last: nat)
    ensures Chain(l, p, last) <==> |p| == 0 || (l.valid(p[0], last) && Chain(l, p[1..], p[0].seqNum))
  {
  }

  lemma AccountOrderIrrelevant(l: Ledger, a: nat, p: seq<Tx>, q: seq<Tx>, txs: seq<Tx>)
    requires RejectsRepeats(l) && Orders(p, txs) && Orders(q, txs) && AccountOK(l, a, p)
    ensures AccountOK(l, a, q)
  {
    ChainPermute(l, p, q, 0);
    FeesPermute(l, p, q);
    SameMembers(p, q);
  }

  // ---------------------------------------------------------------- trimming

  /** What one pass over an account's transactions keeps. */
  function Kept(l: Ledger, txs: seq<Tx>, last: nat): seq<Tx>
  {
    if |txs| == 0 then []
    else if l.valid(txs[0], last) then [txs[0]] + Kept(l, txs[1..], txs[0].seqNum)
    else Kept(l, txs[1..], last)
  }

  /** Nothing is kept when the account cannot pay for all of it. */
  function AfterTrim(l: Ledger, a: nat, txs: seq<Tx>): seq<Tx>
  {
    if Affordable(l, a, Kept(l, txs, 0)) then Kept(l, txs, 0) else []
  }

  /** The number a transaction after these must follow. */
  function LastNumber(txs: seq<Tx>, last: nat): nat
  {
    if |txs| == 0 then last else txs[|txs| - 1].seqNum
  }

  /** A transaction is kept exactly when it is valid after the last one kept before it, whatever was
      dropped in between. */
  lemma {:induction false} KeptIsGreedy(l: Ledger, txs: seq<Tx>, t: Tx, last: nat)
    ensures var kept := Kept(l, txs, last);
            Kept(l, txs + [t], last) == if l.valid(t, LastNumber(kept, last)) then kept + [t] else kept
    decreases |txs|
  {
    if |txs| == 0 {
      assert txs + [t] == [t];
      KeptOne(l, t, last);
    } else {
      assert (txs + [t])[1..] == txs[1..] + [t];
      KeptIsGreedy(l, txs[1..], t, txs[0].seqNum);
      KeptIsGreedy(l, txs[1..], t, last);
    }
  }

  lemma KeptOne(l: Ledger, t: Tx, last: nat)
    ensures Kept(l, [t], last) == if l.valid(t, last) then [t] else []
  {
    assert [t][1..] == [];
  }

  lemma {:induction false} KeptIsChain(l: Ledger, txs: seq<Tx>, last: nat)
    ensures Chain(l, Kept(l, txs, last), last)
    decreases |txs|
  {
    if |txs| > 0 {
      KeptIsChain(l, txs[1..], txs[0].seqNum);
      KeptIsChain(l, txs[1..], last);
    }
  }

  lemma {:induction false} KeptIsPart(l: Ledger, txs: seq<Tx>, last: nat)
    ensures multiset(Kept(l, txs, last)) <= multiset(txs)
    ensures forall t :: t in Kept(l, txs, last) ==> t in txs
    decreases |txs|
  {
    if |txs| > 0 {
      KeptIsPart(l, txs[1..], txs[0].seqNum);
      KeptIsPart(l, txs[1..], last);
      TailSame(txs);
    }
  }

  lemma {:induction false} KeptIsSorted(l: Ledger, txs: seq<Tx>, last: nat)
    requires SortedBy(txs, BySeq)
    ensures SortedBy(Kept(l, txs, last), BySeq)
    decreases |txs|
  {
    if |txs| > 0 {
      hide SortedBy;
      SortedTail(txs);
      KeptIsSorted(l, txs[1..], txs[0].seqNum);
      KeptIsSorted(l, txs[1..], last);
      KeptIsPart(l, txs[1..], txs[0].seqNum);
      SortedOne(txs[0], BySeq);
      SortedAround([txs[0]], Kept(l, txs[1..], txs[0].seqNum), BySeq);
    }
  }

  lemma SortedOne(t: Tx, o: Order)
    ensures SortedBy([t], o)
  {
  }

  lemma {:induction false} ChainKeepsAll(l: Ledger, txs: seq<Tx>, last: nat)
    requires Chain(l, txs, last)
    ensures Kept(l, txs, last) == txs
    decreases |txs|
  {
    if |txs| > 0 {
      ChainKeepsAll(l, txs[1..], txs[0].seqNum);
    }
  }

  /** The outcome of trimming, account by account. */
  ghost predicate TrimmedAt(l: Ledger, before: seq<Tx>, after: seq<Tx>, a: nat)
  {
    exists p :: Orders(p, Of(before, a)) && multiset(Of(after, a)) == multiset(AfterTrim(l, a, p))
  }

  ghost predicate Trimmed(l: Ledger, before: seq<Tx>, after: seq<Tx>)
  {
    SortedBy(after, ByHash) && forall a :: TrimmedAt(l, before, after, a)
  }

  /** After trimming the set is valid on top of the last closed ledger. */
  lemma TrimmedIsValid(l: Ledger, before: seq<Tx>, after: seq<Tx>)
    requires RejectsRepeats(l) && Trimmed(l, before, after)
    ensures ValidSet(l, l.lastClosedHash, after)
  {
    forall a, q | Orders(q, Of(after, a)) ensures AccountOK(l, a, q) {
      assert TrimmedAt(l, before, after, a);
      var p :| Orders(p, Of(before, a)) && multiset(Of(after, a)) == multiset(AfterTrim(l, a, p));
      KeptIsChain(l, p, 0);
      KeptIsSorted(l, p, 0);
      AccountOrderIrrelevant(l, a, AfterTrim(l, a, p), q, Of(after, a));
    }
  }

  /** Trimming a valid set removes nothing. */
  lemma ValidIsNotTrimmed(l: Ledger, previous: nat, before: seq<Tx>, after: seq<Tx>)
    requires ValidSet(l, previous, before) && Trimmed(l, before, after)
    ensures multiset(after) == multiset(before)
  {
    forall a ensures multiset(Of(after, a)) == multiset(Of(before, a)) {
      assert TrimmedAt(l, before, after, a);
      var p :| Orders(p, Of(before, a)) && multiset(Of(after, a)) == multiset(AfterTrim(l, a, p));
      assert AccountOK(l, a, p);
      ChainKeepsAll(l, p, 0);
    }
    SameByAccount(after, before);
  }

  /** Trimming only removes, and removes nothing of an account whose transactions were all right. */
  lemma TrimmingOnlyRemoves(l: Ledger, before: seq<Tx>, after: seq<Tx>)
    requires Trimmed(l, before, after)
    ensures multiset(after) <= multiset(before)
    ensures forall a, p :: RejectsRepeats(l) && Orders(p, Of(before, a)) && AccountOK(l, a, p)
              ==> multiset(Of(after, a)) == multiset(Of(before, a))
  {
    forall t ensures multiset(after)[t] <= multiset(before)[t] {
      var a := t.source;
      assert TrimmedAt(l, before, after, a);
      var p :| Orders(p, Of(before, a)) && multiset(Of(after, a)) == multiset(AfterTrim(l, a, p));
      KeptIsPart(l, p, 0);
      OfCount(after, a, t);
      OfCount(before, a, t);
    }
    forall a, q | RejectsRepeats(l) && Orders(q, Of(before, a)) && AccountOK(l, a, q)
      ensures multiset(Of(after, a)) == multiset(Of(before, a))
    {
      assert TrimmedAt(l, before, after, a);
      var p :| Orders(p, Of(before, a)) && multiset(Of(after, a)) == multiset(AfterTrim(l, a, p));
      AccountOrderIrrelevant(l, a, q, p, Of(before, a));
      ChainKeepsAll(l, p, 0);
    }
  }

  // ---------------------------------------------------------------- removing

  /** The list without the first occurrence of the transaction. */
  function Remove(txs: seq<Tx>, t: Tx): seq<Tx>
  {
    if |txs| == 0 then [] else if txs[0] == t then txs[1..] else [txs[0]] + Remove(txs[1..], t)
  }

  lemma {:induction false} RemoveCorrect(txs: seq<Tx>, t: Tx)
    ensures multiset(Remove(txs, t)) == multiset(txs) - multiset{t}
  {
    if |txs| > 0 {
      var x, rest := txs[0], txs[1..];
      assert txs == [x] + rest;
      SameCons(x, rest);
      if x != t {
        RemoveCorrect(rest, t);
        SameCons(x, Remove(rest, t));
      }
    }
  }

  lemma RemoveMembers(txs: seq<Tx>, t: Tx)
    ensures forall u :: u in Remove(txs, t) ==> u in txs
  {
    hide Remove;
    RemoveCorrect(txs, t);
    forall u | u in Remove(txs, t) ensures u in txs {
      assert u in multiset(Remove(txs, t));
      assert u in multiset(txs);
    }
  }

  lemma {:induction false} RemoveChangesIff(txs: seq<Tx>, t: Tx)
    ensures Remove(txs, t) == txs <==> t !in txs
    ensures t in txs ==> |Remove(txs, t)| == |txs| - 1
  {
    if |txs| > 0 {
      var x, rest := txs[0], txs[1..];
      assert txs == [x] + rest;
      if x != t {
        RemoveChangesIff(rest, t);
        assert Remove(txs, t) == [x] + Remove(rest, t);
        assert t in txs <==> t in rest;
      }
    }
  }

  // ---------------------------------------------------------------- the contents hash

  /** `hash` is the hash of the list, and the list is in hash order. */
  ghost predicate HashOf(l: Ledger, previous: nat, hash: nat, txs: seq<Tx>)
  {
    SortedBy(txs, ByHash) && hash == l.contentsHash(previous, txs)
  }

  ghost predicate CollisionFree(l: Ledger)
  {
    forall previous, p, q :: l.contentsHash(previous, p) == l.contentsHash(previous, q) ==> p == q
  }

  /** A hash that is kept while a transaction is erased becomes wrong exactly when the transaction
      was there. */
  lemma RemovalOutdatesHash(l: Ledger, previous: nat, hash: nat, txs: seq<Tx>, t: Tx)
    requires CollisionFree(l) && HashOf(l, previous, hash, txs)
    ensures HashOf(l, previous, hash, Remove(txs, t)) <==> t !in txs
  {
    RemoveChangesIff(txs, t);
  }

  lemma {:induction false} RemoveSorted(txs: seq<Tx>, t: Tx, o: Order)
    requires SortedBy(txs, o)
    ensures SortedBy(Remove(txs, t), o)
  {
    if |txs| > 0 {
      hide SortedBy;
      SortedAt(txs, o, 1);
      if txs[0] != t {
        RemoveSorted(txs[1..], t, o);
        RemoveMembers(txs[1..], t);
        assert txs[..1] == [txs[0]];
        SortedAround([txs[0]], Remove(txs[1..], t), o);
      }
    }
  }

  lemma RemoveOf(txs: seq<Tx>, t: Tx, a: nat)
    ensures multiset(Of(Remove(txs, t), a)) ==
            if t.source == a then multiset(Of(txs, a)) - multiset{t} else multiset(Of(txs, a))
  {
    RemoveCorrect(txs, t);
    forall u ensures multiset(Of(Remove(txs, t), a))[u] ==
                     (if t.source == a then multiset(Of(txs, a)) - multiset{t} else multiset(Of(txs, a)))[u]
    {
      OfCount(Remove(txs, t), a, u);
      OfCount(txs, a, u);
    }
  }
}
