/** Change sets of a ledger: what was added, modified and deleted, nested change sets that are
    committed into their parent or rolled back, and the entries a change set hands on. */
module LedgerDeltas {
  import opened Options
  import opened Buckets
  import BucketLevels
  import BucketLookup

  type Ledger = map<LedgerKey, LedgerEntry>

  /** The recorded changes; `header` is the ledger header as seen inside the change set. */
  datatype Delta = Delta(header: nat, created: Ledger, modified: Ledger, deleted: set<LedgerKey>)

  function Empty(header: nat): Delta
  {
    Delta(header, map[], map[], {})
  }

  // ---------------------------------------------------------------- single changes

  /** Adding: after a delete it is an update; otherwise the key must be new to the change set. */
  function Add(d: Delta, e: LedgerEntry): Option<Delta>
  {
    var k := LedgerEntryKey(e);
    if k in d.deleted then Some(d.(deleted := d.deleted - {k}, modified := d.modified[k := e]))
    else if k in d.created || k in d.modified then None
    else Some(d.(created := d.created[k := e]))
  }

  function Delete(d: Delta, k: LedgerKey): Option<Delta>
  {
    if k in d.created then Some(d.(created := d.created - {k}))
    else if k in d.deleted then None
    else Some(d.(modified := d.modified - {k}, deleted := d.deleted + {k}))
  }

  function Modify(d: Delta, e: LedgerEntry): Option<Delta>
  {
    var k := LedgerEntryKey(e);
    if k in d.modified then Some(d.(modified := d.modified[k := e]))
    else if k in d.created then Some(d.(created := d.created[k := e]))
    else if k in d.deleted then None
    else Some(d.(modified := d.modified[k := e]))
  }

  // ---------------------------------------------------------------- meaning

  /** The ledger as seen through the change set. */
  function View(d: Delta, base: Ledger): Ledger
  {
    (base + d.created + d.modified) - d.deleted
  }

  ghost predicate Keyed(l: Ledger)
  {
    forall k :: k in l ==> LedgerEntryKey(l[k]) == k
  }

  /** The change set was recorded against `base`: it creates only absent keys, and modifies and
      deletes only present ones; the three kinds are disjoint. */
  ghost predicate Against(d: Delta, base: Ledger)
  {
    && Keyed(d.created) && Keyed(d.modified)
    && d.created.Keys !! base.Keys
    && d.modified.Keys <= base.Keys && d.deleted <= base.Keys
    && d.modified.Keys !! d.deleted
  }

  lemma EmptyIsAgainst(header: nat, base: Ledger)
    ensures Against(Empty(header), base) && View(Empty(header), base) == base
  {
  }

  /** What the view holds for a key. */
  lemma ViewAt(d: Delta, base: Ledger, k: LedgerKey)
    ensures k in View(d, base) <==> k !in d.deleted && (k in base || k in d.created || k in d.modified)
    ensures k in View(d, base) ==>
              View(d, base)[k] == if k in d.modified then d.modified[k] else if k in d.created then d.created[k] else base[k]
  {
  }

  /** A change that fits the view is recorded without failing an assertion and changes the view accordingly. */
  lemma AddRecorded(d: Delta, base: Ledger, e: LedgerEntry)
    requires Against(d, base) && LedgerEntryKey(e) !in View(d, base)
    ensures Add(d, e).Some? && Against(Add(d, e).value, base) && Add(d, e).value.header == d.header
    ensures View(Add(d, e).value, base) == View(d, base)[LedgerEntryKey(e) := e]
  {
    var k := LedgerEntryKey(e);
    ViewAt(d, base, k);
    hide View, LedgerEntryKey;
    var a := Add(d, e).value;
    var v, w := View(a, base), View(d, base)[k := e];
    forall x ensures (x in v <==> x in w) && (x in v ==> v[x] == w[x]) {
      ViewAt(d, base, x);
      ViewAt(a, base, x);
    }
  }

  lemma DeleteRecorded(d: Delta, base: Ledger, k: LedgerKey)
    requires Against(d, base) && k in View(d, base)
    ensures Delete(d, k).Some? && Against(Delete(d, k).value, base) && Delete(d, k).value.header == d.header
    ensures View(Delete(d, k).value, base) == View(d, base) - {k}
  {
    ViewAt(d, base, k);
    hide View, LedgerEntryKey;
    var a := Delete(d, k).value;
    var v, w := View(a, base), View(d, base) - {k};
    forall x ensures (x in v <==> x in w) && (x in v ==> v[x] == w[x]) {
      ViewAt(d, base, x);
      ViewAt(a, base, x);
    }
  }

  lemma ModifyRecorded(d: Delta, base: Ledger, e: LedgerEntry)
    requires Against(d, base) && LedgerEntryKey(e) in View(d, base)
    ensures Modify(d, e).Some? && Against(Modify(d, e).value, base) && Modify(d, e).value.header == d.header
    ensures View(Modify(d, e).value, base) == View(d, base)[LedgerEntryKey(e) := e]
  {
    var k := LedgerEntryKey(e);
    ViewAt(d, base, k);
    hide View, LedgerEntryKey;
    var a := Modify(d, e).value;
    var v, w := View(a, base), View(d, base)[k := e];
    forall x ensures (x in v <==> x in w) && (x in v ==> v[x] == w[x]) {
      ViewAt(d, base, x);
      ViewAt(a, base, x);
    }
  }

  /** A change fails an assertion exactly when the change set itself speaks against it: a delete or
      an update when the change set has already taken the key out of its base, an addition when the
      key is there because the change set put it there or updated it. */
  lemma FailsIff(d: Delta, base: Ledger, e: LedgerEntry)
    requires Against(d, base)
    ensures var k := LedgerEntryKey(e);
            && (Delete(d, k).None? <==> k in base && k !in View(d, base))
            && (Modify(d, e).None? <==> k in base && k !in View(d, base))
            && (Add(d, e).None? <==> k in View(d, base) && (k !in base || k in d.modified))
  {
    var k := LedgerEntryKey(e);
    ViewAt(d, base, k);
    hide View, LedgerEntryKey;
  }

  // ---------------------------------------------------------------- merging

  function Restrict(m: Ledger, keys: set<LedgerKey>): Ledger
  {
    map k | k in m && k in keys :: m[k]
  }

  predicate CanDelete(d: Delta, keys: set<LedgerKey>)
  {
    forall k :: k in keys ==> k in d.created || k !in d.deleted
  }

  function DeleteAll(d: Delta, keys: set<LedgerKey>): Delta
  {
    Delta(d.header, d.created - keys, d.modified - (keys - d.created.Keys), d.deleted + (keys - d.created.Keys))
  }

  predicate CanAdd(d: Delta, m: Ledger)
  {
    forall k :: k in m ==> k in d.deleted || (k !in d.created && k !in d.modified)
  }

  function Overlay(l: Ledger, m: Ledger, keys: set<LedgerKey>): Ledger
    requires keys <= m.Keys
  {
    map k | k in l.Keys + keys :: if k in keys then m[k] else l[k]
  }

  function AddAll(d: Delta, m: Ledger): Delta
  {
    Delta(d.header, Overlay(d.created, m, m.Keys - d.deleted), Overlay(d.modified, m, m.Keys * d.deleted), d.deleted - m.Keys)
  }

  predicate CanModify(d: Delta, m: Ledger)
  {
    forall k :: k in m ==> k in d.modified || k in d.created || k !in d.deleted
  }

  function ModifyAll(d: Delta, m: Ledger): Delta
  {
    Delta(d.header, Overlay(d.created, m, m.Keys * d.created.Keys - d.modified.Keys),
          Overlay(d.modified, m, m.Keys - (d.created.Keys - d.modified.Keys)), d.deleted)
  }

  predicate CanMerge(d: Delta, o: Delta)
  {
    && CanDelete(d, o.deleted)
    && CanAdd(DeleteAll(d, o.deleted), o.created)
    && CanModify(AddAll(DeleteAll(d, o.deleted), o.created), o.modified)
  }

  /** The changes of a nested change set on top of its parent's, and its header. */
  function Merged(d: Delta, o: Delta): Delta
  {
    ModifyAll(AddAll(DeleteAll(d, o.deleted), o.created), o.modified).(header := o.header)
  }

  lemma DeleteAllRecorded(d: Delta, base: Ledger, keys: set<LedgerKey>)
    requires Against(d, base) && keys <= View(d, base).Keys
    ensures CanDelete(d, keys) && Against(DeleteAll(d, keys), base)
    ensures View(DeleteAll(d, keys), base) == View(d, base) - keys
  {
    forall x ensures x in View(d, base) <==> x !in d.deleted && (x in base || x in d.created || x in d.modified) {
      ViewAt(d, base, x);
    }
    hide View, LedgerEntryKey;
    var a := DeleteAll(d, keys);
    var v, w := View(a, base), View(d, base) - keys;
    forall x ensures (x in v <==> x in w) && (x in v ==> v[x] == w[x]) {
      ViewAt(d, base, x);
      ViewAt(a, base, x);
    }
  }

  lemma OverlayAt(l: Ledger, m: Ledger, keys: set<LedgerKey>, k: LedgerKey)
    requires keys <= m.Keys
    ensures k in Overlay(l, m, keys) <==> k in l || k in keys
    ensures k in Overlay(l, m, keys) ==> Overlay(l, m, keys)[k] == if k in keys then m[k] else l[k]
  {
  }

  /** Membership is enough for a change set to be recorded against a ledger. */
  lemma AgainstByKey(d: Delta, base: Ledger)
    requires forall k :: k in d.created ==> LedgerEntryKey(d.created[k]) == k && k !in base
    requires forall k :: k in d.modified ==> LedgerEntryKey(d.modified[k]) == k && k in base && k !in d.deleted
    requires d.deleted <= base.Keys
    ensures Against(d, base)
  {
  }

  lemma AddAllAgainst(d: Delta, base: Ledger, m: Ledger)
    requires Against(d, base) && Keyed(m) && m.Keys !! View(d, base).Keys
    ensures CanAdd(d, m) && Against(AddAll(d, m), base)
  {
    var a := AddAll(d, m);
    var news, mods := m.Keys - d.deleted, m.Keys * d.deleted;
    hide Overlay;
    forall k ensures k in m ==> k in d.deleted || (k !in base && k !in d.created && k !in d.modified) {
      ViewAt(d, base, k);
    }
    forall k | k in a.created ensures LedgerEntryKey(a.created[k]) == k && k !in base {
      OverlayAt(d.created, m, news, k);
    }
    forall k | k in a.modified ensures LedgerEntryKey(a.modified[k]) == k && k in base && k !in a.deleted {
      OverlayAt(d.modified, m, mods, k);
    }
    AgainstByKey(a, base);
  }

  lemma AddAllRecorded(d: Delta, base: Ledger, m: Ledger)
    requires Against(d, base) && Keyed(m) && m.Keys !! View(d, base).Keys
    ensures CanAdd(d, m) && Against(AddAll(d, m), base)
    ensures View(AddAll(d, m), base) == View(d, base) + m
  {
    AddAllAgainst(d, base, m);
    hide View, Overlay, LedgerEntryKey;
    var a := AddAll(d, m);
    var v, w := View(a, base), View(d, base) + m;
    forall x ensures (x in v <==> x in w) && (x in v ==> v[x] == w[x]) {
      ViewAt(d, base, x);
      ViewAt(a, base, x);
      OverlayAt(d.created, m, m.Keys - d.deleted, x);
      OverlayAt(d.modified, m, m.Keys * d.deleted, x);
    }
  }

  lemma ModifyAllAgainst(d: Delta, base: Ledger, m: Ledger)
    requires Against(d, base) && Keyed(m) && m.Keys <= View(d, base).Keys
    ensures CanModify(d, m) && Against(ModifyAll(d, m), base)
  {
    var a := ModifyAll(d, m);
    var news, mods := m.Keys * d.created.Keys - d.modified.Keys, m.Keys - (d.created.Keys - d.modified.Keys);
    hide Overlay;
    forall k ensures k in m ==> k !in d.deleted && (k in base || k in d.created) {
      ViewAt(d, base, k);
    }
    forall k | k in a.created ensures LedgerEntryKey(a.created[k]) == k && k !in base {
      OverlayAt(d.created, m, news, k);
    }
    forall k | k in a.modified ensures LedgerEntryKey(a.modified[k]) == k && k in base && k !in a.deleted {
      OverlayAt(d.modified, m, mods, k);
    }
    AgainstByKey(a, base);
  }

  lemma ModifyAllRecorded(d: Delta, base: Ledger, m: Ledger)
    requires Against(d, base) && Keyed(m) && m.Keys <= View(d, base).Keys
    ensures CanModify(d, m) && Against(ModifyAll(d, m), base)
    ensures View(ModifyAll(d, m), base) == View(d, base) + m
  {
    ModifyAllAgainst(d, base, m);
    hide View, Overlay, LedgerEntryKey;
    var a := ModifyAll(d, m);
    var v, w := View(a, base), View(d, base) + m;
    forall x ensures (x in v <==> x in w) && (x in v ==> v[x] == w[x]) {
      ViewAt(d, base, x);
      ViewAt(a, base, x);
      OverlayAt(d.created, m, m.Keys * d.created.Keys - d.modified.Keys, x);
      OverlayAt(d.modified, m, m.Keys - (d.created.Keys - d.modified.Keys), x);
    }
  }

  /** Merging a change set recorded against the parent's view never fails, and the result stands
      for both in turn. */
  lemma MergeRecorded(d: Delta, o: Delta, base: Ledger)
    requires Against(d, base) && Against(o, View(d, base))
    ensures CanMerge(d, o)
    ensures Against(Merged(d, o), base)
    ensures View(Merged(d, o), base) == View(o, View(d, base))
  {
    var v, d1 := View(d, base), DeleteAll(d, o.deleted);
    var d2 := AddAll(d1, o.created);
    var d3 := ModifyAll(d2, o.modified);
    InTurn(o, v);
    Steps(d, o, base);
    HeaderAside(d3, base, o.header);
  }

  lemma Steps(d: Delta, o: Delta, base: Ledger)
    requires Against(d, base) && Against(o, View(d, base))
    ensures CanMerge(d, o)
    ensures var d3 := ModifyAll(AddAll(DeleteAll(d, o.deleted), o.created), o.modified);
            Against(d3, base) && View(d3, base) == View(d, base) - o.deleted + o.created + o.modified
  {
    hide View, DeleteAll, AddAll, ModifyAll, CanDelete, CanAdd, CanModify;
    var d1 := DeleteAll(d, o.deleted);
    var d2 := AddAll(d1, o.created);
    DeleteAllRecorded(d, base, o.deleted);
    AddAllRecorded(d1, base, o.created);
    ModifyAllRecorded(d2, base, o.modified);
  }

  lemma InTurn(o: Delta, v: Ledger)
    requires Against(o, v)
    ensures View(o, v) == v - o.deleted + o.created + o.modified
  {
  }

  lemma HeaderAside(d: Delta, base: Ledger, h: nat)
    ensures View(d.(header := h), base) == View(d, base)
    ensures Against(d, base) ==> Against(d.(header := h), base)
  {
  }

  lemma DeleteAllStep(d: Delta, done: set<LedgerKey>, k: LedgerKey)
    requires k !in done
    ensures Delete(DeleteAll(d, done), k).Some? <==> k in d.created || k !in d.deleted
    ensures Delete(DeleteAll(d, done), k).Some? ==> Delete(DeleteAll(d, done), k).value == DeleteAll(d, done + {k})
  {
  }

  lemma OverlayStep(l: Ledger, part: Ledger, keys: set<LedgerKey>, k: LedgerKey, e: LedgerEntry)
    requires keys <= part.Keys && k !in part
    ensures Overlay(l, part[k := e], keys) == Overlay(l, part, keys)
    ensures Overlay(l, part[k := e], keys + {k}) == Overlay(l, part, keys)[k := e]
  {
  }

  lemma AddAllStep(d: Delta, part: Ledger, e: LedgerEntry)
    requires LedgerEntryKey(e) !in part
    ensures var k, r := LedgerEntryKey(e), Add(AddAll(d, part), e);
            && (r.Some? <==> k in d.deleted || (k !in d.created && k !in d.modified))
            && (r.Some? ==> r.value == AddAll(d, part[k := e]))
  {
    var k := LedgerEntryKey(e);
    var full := part[k := e];
    var added, changed := part.Keys - d.deleted, part.Keys * d.deleted;
    OverlayStep(d.created, part, added, k, e);
    OverlayStep(d.modified, part, changed, k, e);
    OverlayAt(d.created, part, added, k);
    OverlayAt(d.modified, part, changed, k);
    hide Overlay, LedgerEntryKey;
    if k in d.deleted {
      assert full.Keys - d.deleted == added && full.Keys * d.deleted == changed + {k};
      assert d.deleted - full.Keys == d.deleted - part.Keys - {k};
    } else {
      assert full.Keys - d.deleted == added + {k} && full.Keys * d.deleted == changed;
      assert d.deleted - full.Keys == d.deleted - part.Keys;
    }
  }

  lemma ModifyAllStep(d: Delta, part: Ledger, e: LedgerEntry)
    requires LedgerEntryKey(e) !in part
    ensures var k, r := LedgerEntryKey(e), Modify(ModifyAll(d, part), e);
            && (r.Some? <==> k in d.modified || k in d.created || k !in d.deleted)
            && (r.Some? ==> r.value == ModifyAll(d, part[k := e]))
  {
    var k := LedgerEntryKey(e);
    var full, c := part[k := e], d.created.Keys - d.modified.Keys;
    var news, mods := part.Keys * d.created.Keys - d.modified.Keys, part.Keys - c;
    OverlayStep(d.created, part, news, k, e);
    OverlayStep(d.modified, part, mods, k, e);
    OverlayAt(d.created, part, news, k);
    OverlayAt(d.modified, part, mods, k);
    hide Overlay;
    if k in c {
      assert full.Keys * d.created.Keys - d.modified.Keys == news + {k} && full.Keys - c == mods;
    } else {
      assert full.Keys * d.created.Keys - d.modified.Keys == news && full.Keys - c == mods + {k};
    }
  }

  lemma RestrictStep(m: Ledger, done: set<LedgerKey>, k: LedgerKey)
    requires k in m
    ensures Restrict(m, done + {k}) == Restrict(m, done)[k := m[k]]
  {
  }

  // ---------------------------------------------------------------- trees of nested change sets

  datatype Op =
    | AddEntry(entry: LedgerEntry)
    | ModifyEntry(entry: LedgerEntry)
    | DeleteEntry(key: LedgerKey)
    | SetHeader(value: nat)
    | Nested(ops: seq<Op>, committed: bool)

  datatype World = World(header: nat, ledger: Ledger)

  /** The operation fits the ledger it meets when it runs. */
  ghost predicate FitsOne(op: Op, w: World)
    decreases op
  {
    match op
    case AddEntry(e) => LedgerEntryKey(e) !in w.ledger
    case ModifyEntry(e) => LedgerEntryKey(e) in w.ledger
    case DeleteEntry(k) => k in w.ledger
    case SetHeader(_) => true
    case Nested(ops, _) => Fits(ops, w)
  }

  ghost predicate Fits(ops: seq<Op>, w: World)
    decreases ops
  {
    |ops| > 0 ==> Fits(ops[..|ops| - 1], w) && FitsOne(ops[|ops| - 1], Run(ops[..|ops| - 1], w))
  }

  /** Running an operation directly: what is rolled back leaves no trace. */
  function RunOne(op: Op, w: World): World
    decreases op
  {
    match op
    case AddEntry(e) => w.(ledger := w.ledger[LedgerEntryKey(e) := e])
    case ModifyEntry(e) => w.(ledger := w.ledger[LedgerEntryKey(e) := e])
    case DeleteEntry(k) => w.(ledger := w.ledger - {k})
    case SetHeader(h) => w.(header := h)
    case Nested(ops, committed) => if committed then Run(ops, w) else w
  }

  function Run(ops: seq<Op>, w: World): World
    decreases ops
  {
    if |ops| == 0 then w else RunOne(ops[|ops| - 1], Run(ops[..|ops| - 1], w))
  }

  /** Recording an operation; None is a failed assertion. A nested change set starts empty. */
  function RecordOne(op: Op, d: Delta): Option<Delta>
    decreases op
  {
    match op
    case AddEntry(e) => Add(d, e)
    case ModifyEntry(e) => Modify(d, e)
    case DeleteEntry(k) => Delete(d, k)
    case SetHeader(h) => Some(d.(header := h))
    case Nested(ops, committed) =>
      var o := Record(ops, Empty(d.header));
      if o.None? then None
      else if !committed then Some(d)
      else if CanMerge(d, o.value) then Some(Merged(d, o.value))
      else None
  }

  function Record(ops: seq<Op>, d: Delta): Option<Delta>
    decreases ops
  {
    if |ops| == 0 then Some(d)
    else
      var r := Record(ops[..|ops| - 1], d);
      if r.None? then None else RecordOne(ops[|ops| - 1], r.value)
  }

  /** The record stands for the world: what a reader sees through it over `base`. */
  ghost predicate Stands(d: Delta, base: Ledger, w: World)
  {
    Against(d, base) && d.header == w.header && View(d, base) == w.ledger
  }

  /** For any tree of nested change sets whose operations fit what they change, recording never
      fails and the record stands for running the committed operations in order. */
  lemma {:induction false} RecordCorrect(ops: seq<Op>, d: Delta, base: Ledger, w: World)
    requires Stands(d, base, w) && Fits(ops, w)
    ensures Record(ops, d).Some? && Stands(Record(ops, d).value, base, Run(ops, w))
    decreases ops
  {
    hide Stands;
    if |ops| > 0 {
      var front := ops[..|ops| - 1];
      RecordCorrect(front, d, base, w);
      RecordOneCorrect(ops[|ops| - 1], Record(front, d).value, base, Run(front, w));
    }
  }

  lemma {:induction false} RecordOneCorrect(op: Op, d: Delta, base: Ledger, w: World)
    requires Stands(d, base, w) && FitsOne(op, w)
    ensures RecordOne(op, d).Some? && Stands(RecordOne(op, d).value, base, RunOne(op, w))
    decreases op
  {
    hide Against, View, Add, Modify, Delete, Merged, CanMerge;
    match op
    case AddEntry(e) => AddRecorded(d, base, e);
    case ModifyEntry(e) => ModifyRecorded(d, base, e);
    case DeleteEntry(k) => DeleteRecorded(d, base, k);
    case SetHeader(h) => HeaderAside(d, base, h);
    case Nested(ops, committed) =>
      EmptyIsAgainst(d.header, w.ledger);
      RecordCorrect(ops, Empty(d.header), w.ledger, w);
      var o := Record(ops, Empty(d.header)).value;
      MergeRecorded(d, o, base);
      MergedHeader(d, o);
  }

  lemma MergedHeader(d: Delta, o: Delta)
    ensures Merged(d, o).header == o.header
  {
  }

  // ---------------------------------------------------------------- handing on

  ghost predicate DistinctKeys(live: seq<LedgerEntry>)
  {
    forall i, j :: 0 <= i < j < |live| ==> LedgerEntryKey(live[i]) != LedgerEntryKey(live[j])
  }

  ghost predicate DistinctDead(dead: seq<LedgerKey>)
  {
    forall i, j :: 0 <= i < j < |dead| ==> dead[i] != dead[j]
  }

  /** `es` lists the entries of `m`, each once, in some order. */
  ghost predicate ListsMap(es: seq<LedgerEntry>, m: Ledger)
  {
    && DistinctKeys(es)
    && forall e :: e in es <==> LedgerEntryKey(e) in m && m[LedgerEntryKey(e)] == e
  }

  ghost predicate ListsSet(ks: seq<LedgerKey>, s: set<LedgerKey>)
  {
    && DistinctDead(ks)
    && forall k :: k in ks <==> k in s
  }

  /** The live and dead entries of a change set are a duplicate-free batch, and closing a ledger
      with that batch gives the ledger seen through the change set. */
  lemma HandedOn(d: Delta, base: Ledger, live: seq<LedgerEntry>, dead: seq<LedgerKey>)
    requires Against(d, base) && ListsMap(live, d.created + d.modified) && ListsSet(dead, d.deleted)
    ensures BucketLevels.ValidBatches([BucketLevels.Batch(live, dead)])
    ensures BucketLookup.Close(base, BucketLevels.Batch(live, dead)) == View(d, base)
  {
    var b := BucketLevels.Batch(live, dead);
    var c := BucketLookup.Close(base, b);
    BatchDistinct(d, base, live, dead);
    assert [b][0] == b;
    forall k ensures (k in c <==> k in View(d, base)) && (k in c ==> c[k] == View(d, base)[k]) {
      ClosedAt(d, base, live, dead, k);
    }
  }

  lemma BatchDistinct(d: Delta, base: Ledger, live: seq<LedgerEntry>, dead: seq<LedgerKey>)
    requires Against(d, base) && ListsMap(live, d.created + d.modified) && ListsSet(dead, d.deleted)
    ensures DistinctIds(LiveEntries(live) + DeadEntries(dead))
  {
    var ids := LiveEntries(live) + DeadEntries(dead);
    forall i, j | 0 <= i < j < |ids| ensures Id(ids[i]) != Id(ids[j]) {
      if i < |live| <= j {
        assert live[i] in live && dead[j - |live|] in dead;
      }
    }
  }

  lemma ClosedAt(d: Delta, base: Ledger, live: seq<LedgerEntry>, dead: seq<LedgerKey>, k: LedgerKey)
    requires Against(d, base) && ListsMap(live, d.created + d.modified) && ListsSet(dead, d.deleted)
    ensures var c := BucketLookup.Close(base, BucketLevels.Batch(live, dead));
            (k in c <==> k in View(d, base)) && (k in c ==> c[k] == View(d, base)[k])
  {
    var m := d.created + d.modified;
    BucketLookup.FindLive(live, k);
    var found := Find(LiveEntries(live), k);
    if k in m {
      assert LedgerEntryKey(m[k]) == k && m[k] in live;
      FindIff(LiveEntries(live), k);
      assert found.value.entry in live by {
        var i :| 0 <= i < |live| && LiveEntries(live)[i] == found.value;
        assert live[i] == found.value.entry;
      }
    }
  }

  /** The whole life of a root change set: its live and dead entries, applied to the ledger it was
      opened on, give what running only the committed operations in order gives. */
  lemma RootHandsOn(ops: seq<Op>, w: World, live: seq<LedgerEntry>, dead: seq<LedgerKey>)
    requires Fits(ops, w)
    ensures Record(ops, Empty(w.header)).Some?
    ensures var d := Record(ops, Empty(w.header)).value;
            && d.header == Run(ops, w).header
            && (ListsMap(live, d.created + d.modified) && ListsSet(dead, d.deleted)
                ==> BucketLookup.Close(w.ledger, BucketLevels.Batch(live, dead)) == Run(ops, w).ledger)
  {
    EmptyIsAgainst(w.header, w.ledger);
    RecordCorrect(ops, Empty(w.header), w.ledger, w);
    var d := Record(ops, Empty(w.header)).value;
    if ListsMap(live, d.created + d.modified) && ListsSet(dead, d.deleted) {
      HandedOn(d, w.ledger, live, dead);
    }
  }
}
