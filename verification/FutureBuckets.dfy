/** Bucket files known by their hashes, and pending merges that can be saved by hash and brought
    back to life. */
module FutureBuckets {
  import opened Options
  import opened Buckets
  import opened BucketLevels

  type Hash = nat

  const ZERO: Hash := 0

  /** Bucket files are named by the hash of their contents; the empty bucket has hash zero and no file. */
  ghost predicate ContentAddressed(hash: Bucket -> Hash, files: map<Hash, Bucket>)
  {
    hash([]) == ZERO && forall h :: h in files ==> h != ZERO && hash(files[h]) == h
  }

  function Fetch(files: map<Hash, Bucket>, h: Hash): Option<Bucket>
  {
    if h == ZERO then Some([]) else if h in files then Some(files[h]) else None
  }

  predicate AllFetched(files: map<Hash, Bucket>, hs: seq<Hash>)
  {
    forall i :: 0 <= i < |hs| ==> Fetch(files, hs[i]).Some?
  }

  function FetchAll(files: map<Hash, Bucket>, hs: seq<Hash>): seq<Bucket>
    requires AllFetched(files, hs)
  {
    seq(|hs|, i requires 0 <= i < |hs| => Fetch(files, hs[i]).value)
  }

  function Hashes(hash: Bucket -> Hash, bs: seq<Bucket>): seq<Hash>
  {
    seq(|bs|, i requires 0 <= i < |bs| => hash(bs[i]))
  }

  /** The form in which a pending merge is saved: by the hashes of its inputs or of its output. */
  function Serialized(hash: Bucket -> Hash, f: Future): Future
  {
    match f
    case LiveInputs(c, s, sh) => HashInputs(hash(c), hash(s), Hashes(hash, sh))
    case LiveOutput(b) => HashOutput(hash(b))
    case _ => f
  }

  /** A saved merge made live again, unless a file is missing. */
  function Revived(files: map<Hash, Bucket>, f: Future): Option<Future>
  {
    match f
    case HashOutput(h) =>
      if Fetch(files, h).Some? then Some(LiveOutput(Fetch(files, h).value)) else None
    case HashInputs(c, s, sh) =>
      if Fetch(files, c).Some? && Fetch(files, s).Some? && AllFetched(files, sh)
      then Some(LiveInputs(Fetch(files, c).value, Fetch(files, s).value, FetchAll(files, sh)))
      else None
    case _ => Some(f)
  }

  lemma FetchedHash(hash: Bucket -> Hash, files: map<Hash, Bucket>, h: Hash)
    requires ContentAddressed(hash, files)
    ensures Fetch(files, h).Some? ==> hash(Fetch(files, h).value) == h
  {
  }

  lemma FetchedHashes(hash: Bucket -> Hash, files: map<Hash, Bucket>, hs: seq<Hash>)
    requires ContentAddressed(hash, files) && AllFetched(files, hs)
    ensures Hashes(hash, FetchAll(files, hs)) == hs
  {
    hide Fetch, ContentAddressed;
    forall i | 0 <= i < |hs| ensures hash(FetchAll(files, hs)[i]) == hs[i] {
      FetchedHash(hash, files, hs[i]);
    }
  }

  /** A bucket that was found, the empty one aside, is remembered; nothing else changes. */
  ghost predicate Remembered(was: map<Hash, Bucket>, now: map<Hash, Bucket>, h: Hash, r: Option<Bucket>)
  {
    now == if r.Some? && h != ZERO then was[h := r.value] else was
  }

  /** Looks bucket files up by hash and remembers the ones in use. */
  class BucketManager {
    const files: map<Hash, Bucket>
    var shared: map<Hash, Bucket>

    ghost predicate Valid()
      reads this
    {
      forall h :: h in shared ==> h in files && shared[h] == files[h]
    }

    constructor (files: map<Hash, Bucket>)
      ensures Valid() && this.files == files
    {
      this.files := files;
      this.shared := map[];
    }

    method GetBucketByHash(h: Hash) returns (r: Option<Bucket>)
      requires Valid()
      modifies this
      ensures Valid() && r == Fetch(files, h)
      ensures Remembered(old(shared), shared, h, r)
    {
      if h == ZERO {
        return Some([]);
      }
      if h in shared {
        return Some(shared[h]);
      }
      if h in files {
        shared := shared[h := files[h]];
        return Some(files[h]);
      }
      return None;
    }

    method GetBuckets(hs: seq<Hash>) returns (ok: bool, bs: seq<Bucket>)
      requires Valid()
      modifies this
      ensures Valid() && (ok <==> AllFetched(files, hs))
      ensures ok ==> bs == FetchAll(files, hs)
    {
      hide Remembered;
      bs := [];
      for i := 0 to |hs|
        invariant Valid() && |bs| == i
        invariant forall j :: 0 <= j < i ==> Fetch(files, hs[j]) == Some(bs[j])
      {
        var r := GetBucketByHash(hs[i]);
        if r.None? {
          return false, bs;
        }
        bs := bs + [r.value];
      }
      ok := true;
    }
  }

  datatype State = FB_CLEAR | FB_HASH_OUTPUT | FB_HASH_INPUTS | FB_LIVE_OUTPUT | FB_LIVE_INPUTS

  /** A pending merge and its five-state life cycle. */
  class FutureBucket {
    const hash: Bucket -> Hash
    var state: State
    var inputCurr: Option<Bucket>
    var inputSnap: Option<Bucket>
    var inputShadows: seq<Bucket>
    var output: Option<Bucket>
    var inputCurrHash: Option<Hash>
    var inputSnapHash: Option<Hash>
    var inputShadowHashes: seq<Hash>
    var outputHash: Option<Hash>

    predicate HashesMatch()
      reads this
    {
      && (|inputShadows| > 0 ==> inputShadowHashes == Hashes(hash, inputShadows))
      && (inputSnap.Some? ==> inputSnapHash == Some(hash(inputSnap.value)))
      && (inputCurr.Some? ==> inputCurrHash == Some(hash(inputCurr.value)))
      && (output.Some? && outputHash.Some? ==> outputHash == Some(hash(output.value)))
    }

    /** The combinations of fields that the program allows. */
    predicate CheckState()
      reads this
    {
      match state
      case FB_CLEAR =>
        inputShadows == [] && inputSnap.None? && inputCurr.None? && output.None? &&
        inputShadowHashes == [] && inputSnapHash.None? && inputCurrHash.None? && outputHash.None?
      case FB_LIVE_INPUTS =>
        inputSnap.Some? && inputCurr.Some? && output.Some? && outputHash.None? && HashesMatch()
      case FB_LIVE_OUTPUT =>
        output.Some? && outputHash.Some? && HashesMatch()
      case FB_HASH_INPUTS =>
        inputSnap.None? && inputCurr.None? && output.None? && inputSnapHash.Some? && inputCurrHash.Some? && outputHash.None?
      case FB_HASH_OUTPUT =>
        inputSnap.None? && inputCurr.None? && output.None? && inputSnapHash.None? && inputCurrHash.None? && outputHash.Some?
    }

    /** Beyond the checked state: a running merge is the merge of its inputs, and nothing is left
        of inputs that are gone. */
    ghost predicate Valid()
      reads this
    {
      && CheckState()
      && (state.FB_LIVE_INPUTS? ==>
            output == Some(Merge(inputCurr.value, inputSnap.value, inputShadows)) &&
            inputShadowHashes == Hashes(hash, inputShadows))
      && (state.FB_LIVE_OUTPUT? || state.FB_HASH_OUTPUT? ==> inputShadowHashes == [])
      && (!state.FB_LIVE_INPUTS? ==> inputShadows == [] && inputCurr.None? && inputSnap.None?)
    }

    function View(): Future
      requires Valid()
      reads this
    {
      match state
      case FB_CLEAR => Clear
      case FB_HASH_OUTPUT => HashOutput(outputHash.value)
      case FB_HASH_INPUTS => HashInputs(inputCurrHash.value, inputSnapHash.value, inputShadowHashes)
      case FB_LIVE_OUTPUT => LiveOutput(output.value)
      case FB_LIVE_INPUTS => LiveInputs(inputCurr.value, inputSnap.value, inputShadows)
    }

    constructor (hash: Bucket -> Hash)
      ensures Valid() && View() == Clear && this.hash == hash
    {
      this.hash := hash;
      state := FB_CLEAR;
      inputCurr, inputSnap, inputShadows, output := None, None, [], None;
      inputCurrHash, inputSnapHash, inputShadowHashes, outputHash := None, None, [], None;
    }

    /** Starts merging at once. */
    constructor Merging(hash: Bucket -> Hash, curr: Bucket, snap: Bucket, shadows: seq<Bucket>)
      ensures Valid() && View() == LiveInputs(curr, snap, shadows) && this.hash == hash
    {
      this.hash := hash;
      state := FB_LIVE_INPUTS;
      inputCurr, inputSnap, inputShadows := Some(curr), Some(snap), shadows;
      inputCurrHash, inputSnapHash := Some(hash(curr)), Some(hash(snap));
      inputShadowHashes := Hashes(hash, shadows);
      outputHash := None;
      output := Some(Merge(curr, snap, shadows));
    }

    constructor Copy(other: FutureBucket)
      requires other.Valid()
      ensures Valid() && View() == other.View() && hash == other.hash
    {
      hash := other.hash;
      state := other.state;
      inputCurr, inputSnap, inputShadows, output := other.inputCurr, other.inputSnap, other.inputShadows, other.output;
      inputCurrHash, inputSnapHash := other.inputCurrHash, other.inputSnapHash;
      inputShadowHashes, outputHash := other.inputShadowHashes, other.outputHash;
    }

    method ClearInputs()
      modifies this
      ensures inputCurr.None? && inputSnap.None? && inputShadows == []
      ensures inputCurrHash.None? && inputSnapHash.None? && inputShadowHashes == []
      ensures state == old(state) && output == old(output) && outputHash == old(outputHash)
    {
      inputShadows, inputSnap, inputCurr := [], None, None;
      inputShadowHashes, inputSnapHash, inputCurrHash := [], None, None;
    }

    method Reset()
      modifies this
      ensures Valid() && View() == Clear
    {
      state := FB_CLEAR;
      ClearInputs();
      output, outputHash := None, None;
    }

    /** Waits for the merge and keeps only its output. */
    method Resolve() returns (b: Bucket)
      requires Valid() && IsLive(View())
      modifies this
      ensures Valid() && b == BucketLevels.Resolve(old(View())) && View() == LiveOutput(b)
    {
      ClearInputs();
      b := output.value;
      if outputHash.None? {
        outputHash := Some(hash(b));
      }
      state := FB_LIVE_OUTPUT;
    }

    /** From hashes back to buckets: an output is looked up, a merge of inputs is started again. */
    method MakeLive(bm: BucketManager) returns (ok: bool)
      requires Valid() && bm.Valid() && ContentAddressed(hash, bm.files)
      requires View().HashInputs? || View().HashOutput?
      modifies this, bm
      ensures bm.Valid()
      ensures ok <==> Revived(bm.files, old(View())).Some?
      ensures ok ==> Valid() && Some(View()) == Revived(bm.files, old(View()))
    {
      hide Remembered, Merge, Fetch, ContentAddressed;
      if state == FB_HASH_OUTPUT {
        FetchedHash(hash, bm.files, outputHash.value);
        var r := bm.GetBucketByHash(outputHash.value);
        if r.None? {
          return false;
        }
        state := FB_LIVE_OUTPUT;
        output := r;
        return true;
      }
      ok := RestartInputs(bm);
    }

    method RestartInputs(bm: BucketManager) returns (ok: bool)
      requires Valid() && bm.Valid() && ContentAddressed(hash, bm.files) && View().HashInputs?
      modifies this, bm
      ensures bm.Valid()
      ensures ok <==> Revived(bm.files, old(View())).Some?
      ensures ok ==> Valid() && Some(View()) == Revived(bm.files, old(View()))
    {
      hide Remembered, Merge, Fetch, ContentAddressed;
      var curr := bm.GetBucketByHash(inputCurrHash.value);
      var snap := bm.GetBucketByHash(inputSnapHash.value);
      var found, shadows := bm.GetBuckets(inputShadowHashes);
      if curr.None? || snap.None? || !found {
        return false;
      }
      FetchedHash(hash, bm.files, inputCurrHash.value);
      FetchedHash(hash, bm.files, inputSnapHash.value);
      FetchedHashes(hash, bm.files, inputShadowHashes);
      inputCurr, inputSnap, inputShadows := curr, snap, shadows;
      state := FB_LIVE_INPUTS;
      output := Some(Merge(curr.value, snap.value, shadows));
      ok := true;
    }

    method Save() returns (saved: Future)
      requires Valid()
      ensures saved == Serialized(hash, View())
    {
      match state
      case FB_LIVE_INPUTS => saved := HashInputs(inputCurrHash.value, inputSnapHash.value, inputShadowHashes);
      case FB_HASH_INPUTS => saved := HashInputs(inputCurrHash.value, inputSnapHash.value, inputShadowHashes);
      case FB_LIVE_OUTPUT => saved := HashOutput(outputHash.value);
      case FB_HASH_OUTPUT => saved := HashOutput(outputHash.value);
      case FB_CLEAR => saved := Clear;
    }

    /** Loads a saved merge; anything but the hash forms and the clear form is refused. */
    method Load(saved: Future) returns (ok: bool)
      modifies this
      ensures ok <==> !IsLive(saved)
      ensures ok ==> Valid() && View() == saved
    {
      Reset();
      match saved
      case HashInputs(c, s, sh) =>
        state := FB_HASH_INPUTS;
        inputCurrHash, inputSnapHash, inputShadowHashes := Some(c), Some(s), sh;
        ok := true;
      case HashOutput(h) =>
        state := FB_HASH_OUTPUT;
        outputHash := Some(h);
        ok := true;
      case Clear => ok := true;
      case _ => ok := false;
    }
  }
}
