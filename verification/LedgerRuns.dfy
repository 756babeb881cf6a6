/** Whole runs of ledgers: transactions recorded in nested change sets, handed on as batches,
    and kept in the bucket list. */
module LedgerRuns {
  import opened Buckets
  import opened LedgerDeltas
  import opened BucketLevels
  import opened BucketLookup

  /** What one ledger does: its header when it is opened, and the operations of its transactions. */
  datatype LedgerWork = LedgerWork(header: nat, ops: seq<Op>)

  /** The ledger entries after running only the committed operations of each ledger, in order. */
  function EntriesAfter(works: seq<LedgerWork>): Ledger
  {
    if |works| == 0 then map[]
    else
      var w := works[|works| - 1];
      Run(w.ops, World(w.header, EntriesAfter(works[..|works| - 1]))).ledger
  }

  ghost predicate AllFit(works: seq<LedgerWork>)
  {
    forall i :: 0 <= i < |works| ==> Fits(works[i].ops, World(works[i].header, EntriesAfter(works[..i])))
  }

  /** The batch lists the live and dead entries of the root change set of the ledger. */
  ghost predicate HandsOn(w: LedgerWork, b: Batch)
  {
    var d := Record(w.ops, Empty(w.header));
    d.Some? ==> ListsMap(b.live, d.value.created + d.value.modified) && ListsSet(b.dead, d.value.deleted)
  }

  lemma HandsOnClose(w: LedgerWork, base: Ledger, b: Batch)
    requires Fits(w.ops, World(w.header, base)) && HandsOn(w, b)
    ensures ValidBatches([b]) && Close(base, b) == Run(w.ops, World(w.header, base)).ledger
  {
    hide ListsMap, ListsSet, Fits, Run, Record, Close;
    RootHandsOn(w.ops, World(w.header, base), b.live, b.dead);
    RootBatchValid(w, base, b);
  }

  lemma RootBatchValid(w: LedgerWork, base: Ledger, b: Batch)
    requires Fits(w.ops, World(w.header, base)) && HandsOn(w, b)
    ensures ValidBatches([b])
  {
    hide ListsMap, ListsSet, Fits, Run, Record, Against, ValidBatches;
    EmptyIsAgainst(w.header, base);
    RecordCorrect(w.ops, Empty(w.header), base, World(w.header, base));
    HandedOn(Record(w.ops, Empty(w.header)).value, base, b.live, b.dead);
  }

  lemma FitsFront(works: seq<LedgerWork>, n: nat)
    requires AllFit(works) && n <= |works|
    ensures AllFit(works[..n])
  {
    hide Fits, EntriesAfter;
    forall i | 0 <= i < n ensures Fits(works[..n][i].ops, World(works[..n][i].header, EntriesAfter(works[..n][..i]))) {
      assert works[..n][..i] == works[..i];
    }
  }

  lemma ValidOneMore(bs: seq<Batch>)
    requires |bs| > 0 && ValidBatches(bs[..|bs| - 1]) && ValidBatches([bs[|bs| - 1]])
    ensures ValidBatches(bs)
  {
    hide DistinctIds, LiveEntries, DeadEntries;
    var n := |bs| - 1;
    assert [bs[n]][0] == bs[n];
    forall t | 0 <= t < |bs| ensures DistinctIds(LiveEntries(bs[t].live)) && DistinctIds(DeadEntries(bs[t].dead)) {
      assert t < n ==> bs[t] == bs[..n][t];
    }
  }

  lemma {:induction false} DatabaseIsEntries(works: seq<LedgerWork>, bs: seq<Batch>)
    requires |works| == |bs| && AllFit(works) && forall i :: 0 <= i < |works| ==> HandsOn(works[i], bs[i])
    ensures ValidBatches(bs) && DatabaseAfter(bs) == EntriesAfter(works)
    decreases |works|
  {
    hide HandsOn, Fits, Run, Close, DistinctIds, LiveEntries, DeadEntries;
    if |works| > 0 {
      var n := |works| - 1;
      FitsFront(works, n);
      DatabaseIsEntries(works[..n], bs[..n]);
      HandsOnClose(works[n], EntriesAfter(works[..n]), bs[n]);
      ValidOneMore(bs);
    }
  }

  /** From transactions to the bucket list: at every ledger, the newest-first lookup and the
      committed operations run in order say the same about every key. */
  lemma ListHoldsCommittedWork(works: seq<LedgerWork>, bs: seq<Batch>, k: LedgerKey)
    requires |works| == |bs| < 0x1_0000_0000 && AllFit(works)
    requires forall i :: 0 <= i < |works| ==> HandsOn(works[i], bs[i])
    ensures Agrees(EntriesAfter(works), k, Lookup(After(bs), k))
  {
    DatabaseIsEntries(works, bs);
    ListRefinesMap(bs, k);
  }
}
