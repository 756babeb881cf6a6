/** The change-set object: nested objects share headers through references, merge their changes
    into the outer object when committed and leave it alone when rolled back. */
module LedgerDeltaObject {
  import opened Buckets
  import opened LedgerDeltas
  import BucketLevels
  import BucketLookup

  /** Done, one of the two exceptions, or a failed assertion. */
  datatype Outcome = Done | AlreadyCommitted | UnexpectedHeader | AssertionFailed

  class HeaderCell {
    var value: nat

    constructor (v: nat)
      ensures value == v
    {
      value := v;
    }
  }

  // ---------------------------------------------------------------- merges cut short

  /** Some of the keys have been deleted, and nothing else has changed. */
  ghost predicate PartlyDeleted(d: Delta, keys: set<LedgerKey>, now: Delta)
  {
    exists done :: done <= keys && now == DeleteAll(d, done)
  }

  ghost predicate PartlyAdded(d: Delta, m: Ledger, now: Delta)
  {
    exists done :: done <= m.Keys && now == AddAll(d, Restrict(m, done))
  }

  ghost predicate PartlyModified(d: Delta, m: Ledger, now: Delta)
  {
    exists done :: done <= m.Keys && now == ModifyAll(d, Restrict(m, done))
  }

  /** What an object holds when a merge into it fails in one of its three passes. */
  ghost predicate PartlyMerged(d: Delta, o: Delta, now: Delta)
  {
    var d1 := DeleteAll(d, o.deleted);
    var d2 := AddAll(d1, o.created);
    if !CanDelete(d, o.deleted) then PartlyDeleted(d, o.deleted, now)
    else if !CanAdd(d1, o.created) then PartlyAdded(d1, o.created, now)
    else PartlyModified(d2, o.modified, now)
  }

  class LedgerDelta {
    const current: HeaderCell
    const previous: nat
    var outer: LedgerDelta?
    var header: HeaderCell?
    var created: Ledger
    var modified: Ledger
    var deleted: set<LedgerKey>

    /** Entries are filed under their keys, and the three kinds of change stay disjoint. */
    ghost predicate Valid()
      reads this
    {
      && Keyed(created) && Keyed(modified)
      && created.Keys !! modified.Keys && created.Keys !! deleted && modified.Keys !! deleted
      && header != current
      && (outer != null && header != null ==> outer != this && header == outer.current)
    }

    function Changes(): Delta
      reads this, current
    {
      Delta(current.value, created, modified, deleted)
    }

    function HeaderValue(): nat
      reads this, header
    {
      if header == null then 0 else header.value
    }

    function OuterHeader(): HeaderCell?
      reads this, outer
    {
      if outer == null then null else outer.header
    }

    function OuterOuter(): LedgerDelta?
      reads this, outer
    {
      if outer == null then null else outer.outer
    }

    predicate OuterOpen()
      reads this, outer
    {
      OuterHeader() != null
    }

    function OuterChanges(): Delta
      reads this, outer, current, if outer == null then {} else {outer.current}
    {
      if outer == null then Changes() else outer.Changes()
    }

    constructor Nested(o: LedgerDelta)
      ensures Valid() && outer == o && header == o.current && fresh(current)
      ensures Changes() == Empty(o.current.value) && previous == o.current.value
    {
      outer, header, previous := o, o.current, o.current.value;
      created, modified, deleted := map[], map[], {};
      current := new HeaderCell(o.current.value);
    }

    constructor Root(h: HeaderCell)
      ensures Valid() && outer == null && header == h && fresh(current)
      ensures Changes() == Empty(h.value) && previous == h.value
    {
      outer, header, previous := null, h, h.value;
      created, modified, deleted := map[], map[], {};
      current := new HeaderCell(h.value);
    }

    method AddEntry(e: LedgerEntry) returns (o: Outcome)
      requires Valid()
      modifies this
      ensures Valid() && outer == old(outer) && header == old(header)
      ensures o == if header == null then AlreadyCommitted
                   else if Add(old(Changes()), e).None? then AssertionFailed else Done
      ensures Changes() == if o.Done? then Add(old(Changes()), e).value else old(Changes())
    {
      if header == null {
        return AlreadyCommitted;
      }
      var k := LedgerEntryKey(e);
      if k in deleted {
        deleted := deleted - {k};
        modified := modified[k := e];
      } else {
        if k in created || k in modified {
          return AssertionFailed;
        }
        created := created[k := e];
      }
      return Done;
    }

    method DeleteEntry(k: LedgerKey) returns (o: Outcome)
      requires Valid()
      modifies this
      ensures Valid() && outer == old(outer) && header == old(header)
      ensures o == if header == null then AlreadyCommitted
                   else if Delete(old(Changes()), k).None? then AssertionFailed else Done
      ensures Changes() == if o.Done? then Delete(old(Changes()), k).value else old(Changes())
    {
      if header == null {
        return AlreadyCommitted;
      }
      if k in created {
        created := created - {k};
      } else {
        if k in deleted {
          return AssertionFailed;
        }
        modified := modified - {k};
        deleted := deleted + {k};
      }
      return Done;
    }

    method ModEntry(e: LedgerEntry) returns (o: Outcome)
      requires Valid()
      modifies this
      ensures Valid() && outer == old(outer) && header == old(header)
      ensures o == if header == null then AlreadyCommitted
                   else if Modify(old(Changes()), e).None? then AssertionFailed else Done
      ensures Changes() == if o.Done? then Modify(old(Changes()), e).value else old(Changes())
    {
      if header == null {
        return AlreadyCommitted;
      }
      var k := LedgerEntryKey(e);
      if k in modified {
        modified := modified[k := e];
      } else if k in created {
        created := created[k := e];
      } else {
        if k in deleted {
          return AssertionFailed;
        }
        modified := modified[k := e];
      }
      return Done;
    }

    /** The three passes of a merge, each over the other object's entries in any order. */
    method DeleteAllOf(keys: set<LedgerKey>) returns (o: Outcome)
      requires Valid() && header != null
      modifies this
      ensures Valid() && outer == old(outer) && header == old(header)
      ensures o == if CanDelete(old(Changes()), keys) then Done else AssertionFailed
      ensures o.Done? ==> Changes() == DeleteAll(old(Changes()), keys)
      ensures !o.Done? ==> PartlyDeleted(old(Changes()), keys, Changes())
    {
      hide Delete, DeleteAll;
      ghost var d := Changes();
      var left := keys;
      DeleteNone(d, keys);
      while left != {}
        invariant left <= keys && Valid() && outer == old(outer) && header == old(header)
        invariant CanDelete(d, keys - left) && Changes() == DeleteAll(d, keys - left)
      {
        var k :| k in left;
        DeleteAllStep(d, keys - left, k);
        o := DeleteEntry(k);
        if o != Done {
          assert keys - left <= keys;
          return;
        }
        assert keys - (left - {k}) == keys - left + {k};
        left := left - {k};
      }
      assert keys - left == keys;
      return Done;
    }

    method AddAllOf(m: Ledger) returns (o: Outcome)
      requires Valid() && header != null && Keyed(m)
      modifies this
      ensures Valid() && outer == old(outer) && header == old(header)
      ensures o == if CanAdd(old(Changes()), m) then Done else AssertionFailed
      ensures o.Done? ==> Changes() == AddAll(old(Changes()), m)
      ensures !o.Done? ==> PartlyAdded(old(Changes()), m, Changes())
    {
      hide Add, AddAll, Restrict;
      ghost var d := Changes();
      var left := m.Keys;
      AddNone(d, m);
      while left != {}
        invariant left <= m.Keys && Valid() && outer == old(outer) && header == old(header)
        invariant forall k :: k in m.Keys - left ==> k in d.deleted || (k !in d.created && k !in d.modified)
        invariant Changes() == AddAll(d, Restrict(m, m.Keys - left))
      {
        var k :| k in left;
        RestrictKeys(m, m.Keys - left);
        AddAllStep(d, Restrict(m, m.Keys - left), m[k]);
        RestrictStep(m, m.Keys - left, k);
        o := AddEntry(m[k]);
        if o != Done {
          assert m.Keys - left <= m.Keys;
          return;
        }
        assert m.Keys - (left - {k}) == m.Keys - left + {k};
        left := left - {k};
      }
      RestrictAll(m);
      assert m.Keys - left == m.Keys;
      return Done;
    }

    method ModAllOf(m: Ledger) returns (o: Outcome)
      requires Valid() && header != null && Keyed(m)
      modifies this
      ensures Valid() && outer == old(outer) && header == old(header)
      ensures o == if CanModify(old(Changes()), m) then Done else AssertionFailed
      ensures o.Done? ==> Changes() == ModifyAll(old(Changes()), m)
      ensures !o.Done? ==> PartlyModified(old(Changes()), m, Changes())
    {
      hide Modify, ModifyAll, Restrict;
      ghost var d := Changes();
      var left := m.Keys;
      ModifyNone(d, m);
      while left != {}
        invariant left <= m.Keys && Valid() && outer == old(outer) && header == old(header)
        invariant forall k :: k in m.Keys - left ==> k in d.modified || k in d.created || k !in d.deleted
        invariant Changes() == ModifyAll(d, Restrict(m, m.Keys - left))
      {
        var k :| k in left;
        RestrictKeys(m, m.Keys - left);
        ModifyAllStep(d, Restrict(m, m.Keys - left), m[k]);
        RestrictStep(m, m.Keys - left, k);
        o := ModEntry(m[k]);
        if o != Done {
          assert m.Keys - left <= m.Keys;
          return;
        }
        assert m.Keys - (left - {k}) == m.Keys - left + {k};
        left := left - {k};
      }
      RestrictAll(m);
      assert m.Keys - left == m.Keys;
      return Done;
    }

    method MergeEntries(other: LedgerDelta) returns (o: Outcome)
      requires Valid() && other.Valid() && other != this
      modifies this
      ensures Valid() && outer == old(outer) && header == old(header)
      ensures o == if header == null then AlreadyCommitted
                   else if CanMerge(old(Changes()), other.Changes()) then Done else AssertionFailed
      ensures o.AlreadyCommitted? ==> unchanged(this)
      ensures o.AssertionFailed? ==> PartlyMerged(old(Changes()), other.Changes(), Changes())
      ensures o.Done? ==> Changes() == Merged(old(Changes()), other.Changes()).(header := current.value)
    {
      hide DeleteAll, AddAll, ModifyAll, CanDelete, CanAdd, CanModify, PartlyDeleted, PartlyAdded, PartlyModified;
      ghost var d := Changes();
      if header == null {
        return AlreadyCommitted;
      }
      o := DeleteAllOf(other.deleted);
      if o.Done? {
        o := AddAllOf(other.created);
        if o.Done? {
          o := ModAllOf(other.modified);
          HeaderKept(d, other.Changes());
        }
      }
    }

    /** Committing checks that nobody changed the header meanwhile, merges the changes outwards,
        publishes the header and closes the object. */
    method Commit() returns (o: Outcome)
      requires Valid() && (outer != null ==> outer.Valid())
      modifies this, outer, header
      ensures o == if old(header) == null then AlreadyCommitted
                   else if old(HeaderValue()) != previous then UnexpectedHeader
                   else if old(outer) == null then Done
                   else if !old(OuterOpen()) then AlreadyCommitted
                   else if CanMerge(old(OuterChanges()), old(Changes())) then Done
                   else AssertionFailed
      ensures o.Done? ==> header == null && Changes() == old(Changes()) && old(header).value == current.value
      ensures o.Done? && old(outer) != null ==>
                && old(outer).Valid() && old(outer).Changes() == Merged(old(OuterChanges()), old(Changes()))
                && old(outer).header == old(OuterHeader()) && old(outer).outer == old(OuterOuter())
      ensures o.AlreadyCommitted? || o.UnexpectedHeader? ==>
                && unchanged(this) && (header != null ==> unchanged(header)) && (outer != null ==> unchanged(outer))
    {
      hide Merged, CanMerge;
      if header == null {
        return AlreadyCommitted;
      }
      if previous != header.value {
        return UnexpectedHeader;
      }
      if outer != null {
        MergedHeader(outer.Changes(), Changes());
        o := outer.MergeEntries(this);
        if o != Done {
          return;
        }
        outer := null;
      }
      header.value := current.value;
      header := null;
      return Done;
    }

    /** Rolling back closes the object and touches nothing else. */
    method Rollback() returns (o: Outcome)
      modifies this`header
      ensures header == null && o == if old(header) == null then AlreadyCommitted else Done
    {
      if header == null {
        return AlreadyCommitted;
      }
      header := null;
      return Done;
    }

    /** The entries to write: the created ones in the order of their keys, then the modified ones. */
    method GetLiveEntries() returns (live: seq<LedgerEntry>)
      requires Valid()
      ensures ListsMap(live, created + modified)
      ensures |created| <= |live| && ListsMap(live[..|created|], created) && ListsMap(live[|created|..], modified)
      ensures Ascending(KeysOf(live[..|created|])) && Ascending(KeysOf(live[|created|..]))
    {
      var news := Listed(created);
      var mods := Listed(modified);
      live := news + mods;
      ListsBoth(news, mods, created, modified);
      assert live[..|news|] == news && live[|news|..] == mods;
    }

    /** The keys to remove, in order. */
    method GetDeadEntries() returns (dead: seq<LedgerKey>)
      ensures ListsSet(dead, deleted) && Ascending(dead)
    {
      dead := InOrder(deleted);
      AscendingDistinct(dead);
    }
  }

  function KeysOf(es: seq<LedgerEntry>): seq<LedgerKey>
  {
    seq(|es|, i requires 0 <= i < |es| => LedgerEntryKey(es[i]))
  }

  ghost predicate Ascending(ks: seq<LedgerKey>)
  {
    forall i, j :: 0 <= i < j < |ks| ==> KeyLess(ks[i], ks[j])
  }

  lemma AscendingDistinct(ks: seq<LedgerKey>)
    requires Ascending(ks)
    ensures DistinctDead(ks)
  {
    forall i, j | 0 <= i < j < |ks| ensures ks[i] != ks[j] {
      KeyOrderIsTotal(ks[i], ks[j], ks[i]);
    }
  }

  lemma {:induction false} LeastExists(keys: set<LedgerKey>) returns (least: LedgerKey)
    requires keys != {}
    ensures least in keys && forall k :: k in keys ==> !KeyLess(k, least)
  {
    hide KeyLess;
    var x :| x in keys;
    var rest := keys - {x};
    KeyOrderIsTotal(x, x, x);
    least := x;
    if rest != {} {
      var r := LeastExists(rest);
      KeyOrderIsTotal(x, r, x);
      KeyOrderIsTotal(r, x, r);
      if KeyLess(r, x) {
        least := r;
      } else {
        forall k | k in rest ensures !KeyLess(k, x) {
          KeyOrderIsTotal(k, x, r);
        }
      }
    }
    forall k | k in keys ensures !KeyLess(k, least) {
      assert k == x || k in rest;
    }
  }

  /** The elements of a set in ascending order, as an ordered container iterates over them. */
  method InOrder(keys: set<LedgerKey>) returns (ks: seq<LedgerKey>)
    ensures Ascending(ks) && |ks| == |keys| && forall k :: k in ks <==> k in keys
  {
    hide KeyLess;
    ks := [];
    var left := keys;
    while left != {}
      invariant left <= keys && Ascending(ks) && |ks| + |left| == |keys|
      invariant forall k :: k in ks <==> k in keys && k !in left
      invariant forall k, j :: k in ks && j in left ==> KeyLess(k, j)
    {
      var some := LeastExists(left);
      var k :| k in left && forall j :: j in left ==> !KeyLess(j, k);
      forall j | j in left && j != k ensures KeyLess(k, j) {
        KeyOrderIsTotal(k, j, k);
      }
      ks := ks + [k];
      left := left - {k};
    }
  }

  /** The values of a map in the order of their keys. */
  method Listed(m: Ledger) returns (es: seq<LedgerEntry>)
    requires Keyed(m)
    ensures ListsMap(es, m) && Ascending(KeysOf(es)) && |es| == |m|
  {
    hide KeyLess;
    var ks := InOrder(m.Keys);
    es := [];
    for i := 0 to |ks|
      invariant |es| == i && forall j :: 0 <= j < i ==> es[j] == m[ks[j]] && LedgerEntryKey(es[j]) == ks[j]
    {
      assert ks[i] in m;
      es := es + [m[ks[i]]];
    }
    assert KeysOf(es) == ks;
    AscendingDistinct(ks);
    ListsByKey(es, ks, m);
  }

  lemma ListsByKey(es: seq<LedgerEntry>, ks: seq<LedgerKey>, m: Ledger)
    requires Keyed(m) && DistinctDead(ks) && |es| == |ks| && forall k :: k in ks <==> k in m
    requires forall j :: 0 <= j < |es| ==> ks[j] in m && es[j] == m[ks[j]] && LedgerEntryKey(es[j]) == ks[j]
    ensures ListsMap(es, m)
  {
    hide LedgerEntryKey;
    forall e | LedgerEntryKey(e) in m && m[LedgerEntryKey(e)] == e ensures e in es {
      assert LedgerEntryKey(e) in ks;
      var j :| 0 <= j < |ks| && ks[j] == LedgerEntryKey(e);
      assert es[j] == e;
    }
  }

  lemma ListsBoth(news: seq<LedgerEntry>, mods: seq<LedgerEntry>, created: Ledger, modified: Ledger)
    requires ListsMap(news, created) && ListsMap(mods, modified) && created.Keys !! modified.Keys
    ensures ListsMap(news + mods, created + modified)
  {
    var all := news + mods;
    forall i, j | 0 <= i < j < |all| ensures LedgerEntryKey(all[i]) != LedgerEntryKey(all[j]) {
      if i < |news| <= j {
        assert all[i] in news && all[j] in mods;
      }
    }
  }

  lemma DeleteNone(d: Delta, keys: set<LedgerKey>)
    ensures DeleteAll(d, keys - keys) == d
  {
  }

  lemma AddNone(d: Delta, m: Ledger)
    ensures AddAll(d, Restrict(m, m.Keys - m.Keys)) == d
  {
  }

  lemma ModifyNone(d: Delta, m: Ledger)
    ensures ModifyAll(d, Restrict(m, m.Keys - m.Keys)) == d
  {
  }

  lemma RestrictAll(m: Ledger)
    ensures Restrict(m, m.Keys) == m
  {
  }

  lemma RestrictKeys(m: Ledger, keys: set<LedgerKey>)
    requires keys <= m.Keys
    ensures Restrict(m, keys).Keys == keys
  {
  }

  lemma HeaderKept(d: Delta, o: Delta)
    ensures ModifyAll(AddAll(DeleteAll(d, o.deleted), o.created), o.modified) == Merged(d, o).(header := d.header)
  {
  }

  // ---------------------------------------------------------------- whole trees

  /** Carrying out one operation on a live object, opening and closing nested objects as it says. */
  method PerformOne(d: LedgerDelta, op: Op) returns (o: Outcome)
    requires d.Valid() && d.header != null
    modifies d, d.current
    ensures o == if RecordOne(op, old(d.Changes())).Some? then Done else AssertionFailed
    ensures o.Done? ==> d.Valid() && d.header == old(d.header) && d.outer == old(d.outer)
    ensures o.Done? ==> d.Changes() == RecordOne(op, old(d.Changes())).value
    decreases op
  {
    hide Add, Delete, Modify, Merged, CanMerge;
    match op
    case AddEntry(e) => o := d.AddEntry(e);
    case ModifyEntry(e) => o := d.ModEntry(e);
    case DeleteEntry(k) => o := d.DeleteEntry(k);
    case SetHeader(h) =>
      d.current.value := h;
      o := Done;
    case Nested(ops, committed) =>
      o := PerformNested(d, ops, committed);
  }

  method PerformNested(d: LedgerDelta, ops: seq<Op>, committed: bool) returns (o: Outcome)
    requires d.Valid() && d.header != null
    modifies d, d.current
    ensures o == if RecordOne(Op.Nested(ops, committed), old(d.Changes())).Some? then Done else AssertionFailed
    ensures o.Done? ==> d.Valid() && d.header == old(d.header) && d.outer == old(d.outer)
    ensures o.Done? ==> d.Changes() == RecordOne(Op.Nested(ops, committed), old(d.Changes())).value
    decreases ops, 1
  {
    hide Merged, CanMerge;
    var inner := new LedgerDelta.Nested(d);
    o := Perform(inner, ops);
    if o.Done? {
      if committed {
        o := inner.Commit();
      } else {
        o := inner.Rollback();
      }
    }
  }

  method Perform(d: LedgerDelta, ops: seq<Op>) returns (o: Outcome)
    requires d.Valid() && d.header != null
    modifies d, d.current
    ensures o == if Record(ops, old(d.Changes())).Some? then Done else AssertionFailed
    ensures o.Done? ==> d.Valid() && d.header == old(d.header) && d.outer == old(d.outer)
    ensures o.Done? ==> d.Changes() == Record(ops, old(d.Changes())).value
    decreases ops, 0
  {
    hide RecordOne;
    if |ops| == 0 {
      return Done;
    }
    o := Perform(d, ops[..|ops| - 1]);
    if o.Done? {
      o := PerformOne(d, ops[|ops| - 1]);
    }
  }

  /** The change set of a ledger being closed: opened on its header, taking the operations in,
      committed, and asked for its entries. The header and the batch handed on are what running
      only the committed operations gives. */
  method CloseRoot(h: HeaderCell, ops: seq<Op>, ghost base: Ledger)
    returns (o: Outcome, live: seq<LedgerEntry>, dead: seq<LedgerKey>)
    requires Fits(ops, World(h.value, base))
    modifies h
    ensures o == Done && h.value == Run(ops, World(old(h.value), base)).header
    ensures BucketLevels.ValidBatches([BucketLevels.Batch(live, dead)])
    ensures BucketLookup.Close(base, BucketLevels.Batch(live, dead)) == Run(ops, World(old(h.value), base)).ledger
  {
    hide Fits, Run, Record, Against, BucketLevels.ValidBatches, ListsMap, ListsSet, Ascending;
    ghost var w := World(h.value, base);
    EmptyIsAgainst(w.header, base);
    RecordCorrect(ops, Empty(w.header), base, w);
    var d := new LedgerDelta.Root(h);
    o := Perform(d, ops);
    o := d.Commit();
    live := d.GetLiveEntries();
    dead := d.GetDeadEntries();
    HandedOn(d.Changes(), base, live, dead);
  }
}
