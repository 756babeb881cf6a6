/** The transaction set object, whose list is sorted and erased in place. */
module TxSetObject {
  import opened TxSets

  /** What is promised of the order of application. */
  ghost predicate AppliesInOrder(r: seq<Tx>, txs: seq<Tx>)
  {
    && multiset(r) == multiset(txs)
    && Layered(r)
    && forall i, j :: 0 <= i < j < |r| && r[i].source == r[j].source ==> r[i].seqNum <= r[j].seqNum
  }

  lemma OfAtRank(r: seq<Tx>, i: nat)
    requires i < |r|
    ensures Rank(r, i) < |Of(r, r[i].source)| && Of(r, r[i].source)[Rank(r, i)] == r[i]
  {
    var a := r[i].source;
    assert r == r[..i] + [r[i]] + r[i + 1..];
    OfAppend(r[..i] + [r[i]], r[i + 1..], a);
    OfSnoc(r[..i], r[i], a);
  }

  lemma RankAscends(r: seq<Tx>, i: nat, j: nat)
    requires i < j < |r| && r[i].source == r[j].source
    ensures Rank(r, i) < Rank(r, j)
  {
    OfAtRank(r[..j], i);
    assert r[..j][..i] == r[..i];
  }

  lemma AccountsAscend(r: seq<Tx>, txs: seq<Tx>)
    requires SortedBy(txs, BySeq) && forall a :: Of(r, a) == Of(txs, a)
    ensures forall i, j :: 0 <= i < j < |r| && r[i].source == r[j].source ==> r[i].seqNum <= r[j].seqNum
  {
    hide Rank, Of;
    forall i, j | 0 <= i < j < |r| && r[i].source == r[j].source ensures r[i].seqNum <= r[j].seqNum {
      var a := r[i].source;
      OfAtRank(r, i);
      OfAtRank(r, j);
      RankAscends(r, i, j);
      SortedOf(txs, a);
      assert Key(BySeq, Of(r, a)[Rank(r, i)]) <= Key(BySeq, Of(r, a)[Rank(r, j)]);
    }
  }

  /** The transactions of each account, in the order of the list. */
  method ByAccount(txs: seq<Tx>) returns (groups: map<nat, seq<Tx>>)
    ensures forall a :: Of(txs, a) == if a in groups then groups[a] else []
  {
    groups := map[];
    for n := 0 to |txs|
      invariant forall a :: Of(txs[..n], a) == if a in groups then groups[a] else []
    {
      var t := txs[n];
      assert txs[..n + 1] == txs[..n] + [t];
      forall a ensures Of(txs[..n + 1], a) == if t.source == a then Of(txs[..n], a) + [t] else Of(txs[..n], a) {
        OfSnoc(txs[..n], t, a);
      }
      groups := groups[t.source := (if t.source in groups then groups[t.source] else []) + [t]];
    }
    assert txs[..|txs|] == txs;
  }

  /** One account's part of the validity test; `p` is the order the sort chose. */
  method CheckAccount(l: Ledger, a: nat, list: seq<Tx>) returns (ok: bool, ghost p: seq<Tx>)
    ensures Orders(p, list) && (ok <==> AccountOK(l, a, p))
  {
    var txs := Sorted(list, BySeq);
    p := txs;
    var lastSeq, totFee := 0, 0;
    for n := 0 to |txs|
      invariant Chain(l, p, 0) <==> Chain(l, p[n..], lastSeq)
      invariant Fees(l, p) == totFee + Fees(l, p[n..])
    {
      assert p[n..][1..] == p[n + 1..];
      if !l.valid(txs[n], lastSeq) {
        return false, p;
      }
      totFee := totFee + l.fee(txs[n]);
      lastSeq := txs[n].seqNum;
    }
    ok := |txs| == 0 || l.balance(a) - totFee >= l.minimumBalance(a);
  }

  /** Only account `a` lost transactions, and hash order stayed. */
  ghost predicate OthersStay(was: seq<Tx>, now: seq<Tx>, a: nat)
  {
    && (forall b :: b != a ==> multiset(Of(now, b)) == multiset(Of(was, b)))
    && (SortedBy(was, ByHash) ==> SortedBy(now, ByHash))
  }

  class TxSetFrame {
    var hashIsValid: bool
    var hash: nat
    var previousLedgerHash: nat
    var transactions: seq<Tx>

    /** A hash that is held is the hash of the list. */
    ghost predicate HashHolds(l: Ledger)
      reads this
    {
      hashIsValid ==> HashOf(l, previousLedgerHash, hash, transactions)
    }

    constructor (previous: nat)
      ensures transactions == [] && previousLedgerHash == previous && !hashIsValid
    {
      hashIsValid, hash, previousLedgerHash, transactions := false, 0, previous, [];
    }

    method Append(t: Tx)
      modifies this`transactions, this`hashIsValid
      ensures transactions == old(transactions) + [t] && !hashIsValid
    {
      transactions := transactions + [t];
      hashIsValid := false;
    }

    method SortForHash()
      modifies this`transactions, this`hashIsValid
      ensures multiset(transactions) == multiset(old(transactions)) && SortedBy(transactions, ByHash) && !hashIsValid
    {
      transactions := Sorted(transactions, ByHash);
      hashIsValid := false;
    }

    /** Sorts the list and hashes it, unless a hash is already held. */
    method GetContentsHash(l: Ledger) returns (h: nat)
      modifies this`transactions, this`hashIsValid, this`hash
      ensures hashIsValid && hash == h && multiset(transactions) == multiset(old(transactions))
      ensures old(hashIsValid) ==> h == old(hash) && transactions == old(transactions)
      ensures !old(hashIsValid) ==> HashOf(l, previousLedgerHash, h, transactions)
      ensures old(HashHolds(l)) ==> HashOf(l, previousLedgerHash, h, transactions)
    {
      if !hashIsValid {
        SortForHash();
        hash := l.contentsHash(previousLedgerHash, transactions);
        hashIsValid := true;
      }
      h := hash;
    }

    /** Erases the first occurrence, if any. A hash already held is kept, so it is no longer the
        hash of the list exactly when the transaction was there. */
    method RemoveTx(t: Tx)
      modifies this`transactions
      ensures transactions == Remove(old(transactions), t)
      ensures forall l: Ledger :: CollisionFree(l) && hashIsValid && old(HashHolds(l)) ==>
                (HashHolds(l) <==> t !in old(transactions))
    {
      hide CollisionFree, HashOf;
      var i := 0;
      while i < |transactions| && transactions[i] != t
        invariant i <= |transactions| && transactions == old(transactions)
        invariant Remove(transactions, t) == transactions[..i] + Remove(transactions[i..], t)
      {
        assert transactions[i..][1..] == transactions[i + 1..];
        i := i + 1;
      }
      if i < |transactions| {
        transactions := transactions[..i] + transactions[i + 1..];
      }
      assert transactions == Remove(old(transactions), t);
      forall l: Ledger | CollisionFree(l) && hashIsValid && old(HashHolds(l))
        ensures HashHolds(l) <==> t !in old(transactions)
      {
        RemovalOutdatesHash(l, previousLedgerHash, hash, old(transactions), t);
      }
    }

    /** The order of application: the same transactions, each account's in ascending sequence
        order, every account's i-th before every account's (i+1)-th, and the i-th ones ordered by
        their hashes mixed with the hash of the set. */
    method SortForApply(l: Ledger) returns (r: seq<Tx>)
      modifies this`transactions, this`hashIsValid, this`hash
      ensures AppliesInOrder(r, old(transactions))
      ensures hashIsValid && WithinLayers(r, ByMix(l.mix, hash))
      ensures multiset(transactions) == multiset(old(transactions))
      ensures old(HashHolds(l)) ==> HashHolds(l)
    {
      hide IsBatch, HoldsBatches, Layered, SortedBy, Key, WithinLayers, HashOf;
      var txs := Sorted(transactions, BySeq);
      var batches := Batches(txs);
      r := [];
      NothingApplied(txs);
      for v := 0 to |batches|
        invariant HoldsBatches(r, txs, v)
        invariant Layered(r) && forall i :: 0 <= i < |r| ==> Rank(r, i) < v
        invariant if v == 0 then r == [] else hashIsValid && WithinLayers(r, ByMix(l.mix, hash))
        invariant multiset(transactions) == multiset(old(transactions))
        invariant old(HashHolds(l)) ==> HashHolds(l)
      {
        var h := GetContentsHash(l);
        var batch := Sorted(batches[v], ByMix(l.mix, h));
        ReorderedBatch(batches[v], batch, txs, v);
        AppendBatch(r, batch, txs, v);
        AppendLayered(r, batch, txs, v);
        if v == 0 {
          NothingWithin(ByMix(l.mix, h));
        }
        AppendWithin(r, batch, txs, v, ByMix(l.mix, h));
        r := r + batch;
      }
      AllBatches(r, txs, |batches|);
      AccountsAscend(r, txs);
    }

    /** Under a transaction test that rejects repeats, the answer is exactly validity of the set. */
    method CheckValid(l: Ledger) returns (ok: bool)
      ensures RejectsRepeats(l) ==> (ok <==> ValidSet(l, previousLedgerHash, transactions))
      ensures !ok ==> !ValidSet(l, previousLedgerHash, transactions)
    {
      if l.lastClosedHash != previousLedgerHash {
        return false;
      }
      var ordered := InHashOrder(transactions);
      if !ordered {
        return false;
      }
      hide AccountOK, Orders, RejectsRepeats;
      var groups := ByAccount(transactions);
      var left := groups.Keys;
      while left != {}
        invariant left <= groups.Keys
        invariant forall a :: a in groups && a !in left ==>
                    exists p :: Orders(p, Of(transactions, a)) && AccountOK(l, a, p)
      {
        var a :| a in left;
        ghost var p;
        ok, p := CheckAccount(l, a, groups[a]);
        if !ok {
          return;
        }
        left := left - {a};
      }
      ok := true;
      if RejectsRepeats(l) {
        forall a, q | Orders(q, Of(transactions, a)) ensures AccountOK(l, a, q) {
          if a in groups {
            var p :| Orders(p, Of(transactions, a)) && AccountOK(l, a, p);
            AccountOrderIrrelevant(l, a, p, q, Of(transactions, a));
          } else {
            NothingIsOK(l, a, q);
          }
        }
      }
    }

    method RemoveAll(a: nat, txs: seq<Tx>)
      requires forall t :: t in txs ==> t.source == a
      modifies this`transactions
      ensures multiset(Of(transactions, a)) == multiset(Of(old(transactions), a)) - multiset(txs)
      ensures OthersStay(old(transactions), transactions, a)
    {
      hide SortedBy, Of, Remove;
      for n := 0 to |txs|
        invariant multiset(Of(transactions, a)) == multiset(Of(old(transactions), a)) - multiset(txs[..n])
        invariant OthersStay(old(transactions), transactions, a)
      {
        assert txs[..n + 1] == txs[..n] + [txs[n]];
        RemovedOne(transactions, txs[n]);
        RemoveTx(txs[n]);
      }
      assert txs[..|txs|] == txs;
    }

    /** Drops the invalid transactions of one account, or all of them when it cannot pay. */
    method TrimAccount(l: Ledger, a: nat, list: seq<Tx>) returns (ghost p: seq<Tx>)
      requires multiset(list) == multiset(Of(transactions, a))
      modifies this`transactions
      ensures Orders(p, list) && multiset(Of(transactions, a)) == multiset(AfterTrim(l, a, p))
      ensures OthersStay(old(transactions), transactions, a)
    {
      hide OthersStay, Of, Remove, AfterTrim, Kept, Fees, Passing;
      var txs := Sorted(list, BySeq);
      p := txs;
      SourcesAre(p, transactions, a);
      var some, lastSeq, totFee := false, 0, 0;
      ghost var kept := [];
      PassStarts(l, p, transactions, a);
      for n := 0 to |txs|
        invariant Passing(l, p, n, kept, lastSeq, totFee, multiset(Of(transactions, a))) && some == (|kept| > 0)
        invariant OthersStay(old(transactions), transactions, a)
      {
        PassStep(l, p, n, kept, lastSeq, totFee, multiset(Of(transactions, a)));
        if !l.valid(txs[n], lastSeq) {
          RemovedOne(transactions, txs[n]);
          OthersStayOn(old(transactions), transactions, Remove(transactions, txs[n]), a);
          RemoveTx(txs[n]);
          continue;
        }
        totFee := totFee + l.fee(txs[n]);
        kept := kept + [txs[n]];
        some, lastSeq := true, txs[n].seqNum;
      }
      PassEnds(l, a, p, kept, lastSeq, totFee, multiset(Of(transactions, a)));
      if some && l.balance(a) - totFee < l.minimumBalance(a) {
        ghost var was := transactions;
        RemoveAll(a, txs);
        OthersStayOn(old(transactions), was, transactions, a);
      }
    }

    /** Trimming leaves each account with what `AfterTrim` keeps of it, in hash order. */
    method TrimInvalid(l: Ledger)
      modifies this`transactions, this`hashIsValid
      ensures Trimmed(l, old(transactions), transactions)
      ensures !hashIsValid
    {
      hide AfterTrim, Of, SortedBy, Orders;
      ghost var before := transactions;
      SortForHash();
      ghost var sorted := transactions;
      var groups := ByAccount(transactions);
      var left := groups.Keys;
      while left != {}
        invariant left <= groups.Keys && !hashIsValid
        invariant SortedBy(transactions, ByHash)
        invariant forall a :: a in groups && a !in left ==> TrimmedAt(l, sorted, transactions, a)
        invariant forall a :: a !in groups || a in left ==> multiset(Of(transactions, a)) == multiset(Of(sorted, a))
      {
        var a :| a in left;
        ghost var was := transactions;
        ghost var p := TrimAccount(l, a, groups[a]);
        assert TrimmedAt(l, sorted, transactions, a);
        forall b | b in groups && b !in left ensures TrimmedAt(l, sorted, transactions, b) {
          TrimmedStays(l, sorted, was, transactions, b);
        }
        left := left - {a};
      }
      forall a ensures TrimmedAt(l, before, transactions, a) {
        if a !in groups {
          NothingToTrim(l, sorted, transactions, a);
        }
        TrimmedFrom(l, sorted, before, transactions, a);
      }
    }
  }

  method InHashOrder(txs: seq<Tx>) returns (ok: bool)
    ensures ok <==> SortedBy(txs, ByHash)
  {
    var lastHash := 0;
    for n := 0 to |txs|
      invariant SortedBy(txs[..n], ByHash)
      invariant forall i :: 0 <= i < n ==> Key(ByHash, txs[i]) <= lastHash
      invariant n > 0 ==> lastHash == Key(ByHash, txs[n - 1])
      invariant n == 0 ==> lastHash == 0
    {
      if txs[n].fullHash < lastHash {
        return false;
      }
      lastHash := txs[n].fullHash;
    }
    assert txs[..|txs|] == txs;
    return true;
  }

  lemma NothingApplied(txs: seq<Tx>)
    ensures HoldsBatches([], txs, 0) && Layered([])
  {
  }

  lemma NothingWithin(o: Order)
    ensures WithinLayers([], o)
  {
  }

  lemma NothingIsOK(l: Ledger, a: nat, q: seq<Tx>)
    requires Orders(q, [])
    ensures AccountOK(l, a, q)
  {
    SameMembers(q, []);
  }

  lemma SourcesAre(p: seq<Tx>, txs: seq<Tx>, a: nat)
    requires multiset(p) == multiset(Of(txs, a))
    ensures forall t :: t in p ==> t.source == a
  {
    SameMembers(p, Of(txs, a));
    forall t | t in p ensures t.source == a {
      OfMember(txs, a, t);
    }
  }

  lemma RemovedOne(txs: seq<Tx>, t: Tx)
    ensures multiset(Of(Remove(txs, t), t.source)) == multiset(Of(txs, t.source)) - multiset{t}
    ensures OthersStay(txs, Remove(txs, t), t.source)
  {
    RemoveOf(txs, t, t.source);
    forall b | b != t.source ensures multiset(Of(Remove(txs, t), b)) == multiset(Of(txs, b)) {
      RemoveOf(txs, t, b);
    }
    if SortedBy(txs, ByHash) {
      RemoveSorted(txs, t, ByHash);
    }
  }

  lemma {:induction false} FeesSnoc(l: Ledger, txs: seq<Tx>, t: Tx)
    ensures Fees(l, txs + [t]) == Fees(l, txs) + l.fee(t)
  {
    FeesWithout(l, txs + [t], |txs|);
    assert Without(txs + [t], |txs|) == txs;
  }

  /** In the midst of the pass over an account: `kept` is decided, the rest is to come, and `held`
      is what the set still holds of the account. */
  ghost predicate Passing(l: Ledger, p: seq<Tx>, n: nat, kept: seq<Tx>, last: nat, fees: int, held: multiset<Tx>)
  {
    && n <= |p|
    && Kept(l, p, 0) == kept + Kept(l, p[n..], last)
    && held == multiset(kept) + multiset(p[n..])
    && fees == Fees(l, kept)
  }

  lemma PassStarts(l: Ledger, p: seq<Tx>, txs: seq<Tx>, a: nat)
    requires multiset(p) == multiset(Of(txs, a))
    ensures Passing(l, p, 0, [], 0, 0, multiset(Of(txs, a))) && OthersStay(txs, txs, a)
  {
    assert p[0..] == p;
  }

  lemma PassStep(l: Ledger, p: seq<Tx>, n: nat, kept: seq<Tx>, last: nat, fees: int, held: multiset<Tx>)
    requires n < |p| && Passing(l, p, n, kept, last, fees, held)
    ensures l.valid(p[n], last) ==> Passing(l, p, n + 1, kept + [p[n]], p[n].seqNum, fees + l.fee(p[n]), held)
    ensures !l.valid(p[n], last) ==> Passing(l, p, n + 1, kept, last, fees, held - multiset{p[n]})
  {
    var rest := p[n..];
    assert rest[1..] == p[n + 1..] && rest[0] == p[n];
    TailSame(rest);
    FeesSnoc(l, kept, p[n]);
    assert kept + ([p[n]] + Kept(l, p[n + 1..], p[n].seqNum)) == kept + [p[n]] + Kept(l, p[n + 1..], p[n].seqNum);
  }

  lemma PassEnds(l: Ledger, a: nat, p: seq<Tx>, kept: seq<Tx>, last: nat, fees: int, held: multiset<Tx>)
    requires Passing(l, p, |p|, kept, last, fees, held)
    ensures held <= multiset(p)
    ensures if |kept| > 0 && l.balance(a) - fees < l.minimumBalance(a) then AfterTrim(l, a, p) == []
            else held == multiset(AfterTrim(l, a, p))
  {
    assert p[|p|..] == [];
    assert kept == Kept(l, p, 0);
    KeptIsPart(l, p, 0);
  }

  lemma OthersStayOn(first: seq<Tx>, second: seq<Tx>, third: seq<Tx>, a: nat)
    requires OthersStay(first, second, a) && OthersStay(second, third, a)
    ensures OthersStay(first, third, a)
  {
  }

  lemma TrimmedStays(l: Ledger, before: seq<Tx>, was: seq<Tx>, after: seq<Tx>, b: nat)
    requires TrimmedAt(l, before, was, b) && multiset(Of(was, b)) == multiset(Of(after, b))
    ensures TrimmedAt(l, before, after, b)
  {
    var p :| Orders(p, Of(before, b)) && multiset(Of(was, b)) == multiset(AfterTrim(l, b, p));
  }

  lemma TrimmedFrom(l: Ledger, sorted: seq<Tx>, before: seq<Tx>, after: seq<Tx>, a: nat)
    requires multiset(sorted) == multiset(before) && TrimmedAt(l, sorted, after, a)
    ensures TrimmedAt(l, before, after, a)
  {
    SameOf(sorted, before, a);
    var p :| Orders(p, Of(sorted, a)) && multiset(Of(after, a)) == multiset(AfterTrim(l, a, p));
    assert Orders(p, Of(before, a));
  }

  lemma NothingToTrim(l: Ledger, sorted: seq<Tx>, after: seq<Tx>, a: nat)
    requires Of(sorted, a) == [] && multiset(Of(after, a)) == multiset(Of(sorted, a))
    ensures TrimmedAt(l, sorted, after, a)
  {
    assert Orders([], Of(sorted, a));
    assert AfterTrim(l, a, []) == [];
  }

  // ---------------------------------------------------------------- the set a node proposes

  function AllOf(lists: seq<seq<Tx>>): seq<Tx>
  {
    if |lists| == 0 then [] else AllOf(lists[..|lists| - 1]) + lists[|lists| - 1]
  }

  lemma TrimmedResorted(l: Ledger, before: seq<Tx>, after: seq<Tx>, again: seq<Tx>)
    requires Trimmed(l, before, after) && multiset(after) == multiset(again) && SortedBy(again, ByHash)
    ensures Trimmed(l, before, again)
  {
    forall a ensures TrimmedAt(l, before, again, a) {
      SameOf(after, again, a);
      TrimmedStays(l, before, after, again, a);
    }
  }

  /** The set a node proposes on top of the last closed ledger: everything received, trimmed. It is
      valid, adds nothing, and carries the hash of its contents. */
  method ProposedSet(l: Ledger, received: seq<seq<Tx>>) returns (frame: TxSetFrame, h: nat)
    ensures fresh(frame) && frame.previousLedgerHash == l.lastClosedHash
    ensures Trimmed(l, AllOf(received), frame.transactions)
    ensures multiset(frame.transactions) <= multiset(AllOf(received))
    ensures RejectsRepeats(l) ==> ValidSet(l, frame.previousLedgerHash, frame.transactions)
    ensures frame.hashIsValid && HashOf(l, frame.previousLedgerHash, h, frame.transactions)
  {
    hide Trimmed, ValidSet, RejectsRepeats;
    frame := new TxSetFrame(l.lastClosedHash);
    for i := 0 to |received|
      invariant fresh(frame) && frame.previousLedgerHash == l.lastClosedHash && !frame.hashIsValid
      invariant frame.transactions == AllOf(received[..i])
    {
      var list := received[i];
      for j := 0 to |list|
        invariant fresh(frame) && frame.previousLedgerHash == l.lastClosedHash && !frame.hashIsValid
        invariant frame.transactions == AllOf(received[..i]) + list[..j]
      {
        assert list[..j + 1] == list[..j] + [list[j]];
        frame.Append(list[j]);
      }
      assert list[..|list|] == list && received[..i + 1][..i] == received[..i];
    }
    assert received[..|received|] == received;
    frame.TrimInvalid(l);
    ghost var trimmed := frame.transactions;
    h := frame.GetContentsHash(l);
    TrimmedResorted(l, AllOf(received), trimmed, frame.transactions);
    TrimmingOnlyRemoves(l, AllOf(received), frame.transactions);
    if RejectsRepeats(l) {
      TrimmedIsValid(l, AllOf(received), frame.transactions);
    }
  }
}
