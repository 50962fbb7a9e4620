/** Deleting a bucket volume: its children are listed page by page and deleted one by one, because
    deleting the bucket at once would not free their data. Nobody else writes to the bucket. */
module BucketEmptying {
  import opened Wrappers
  import opened Strings
  import VacStore

  type Name = string

  // ---- the order in which the filer lists names --------------------------------------------------

  predicate Less(a: Name, b: Name) {
    b != "" && (a == "" || a[0] < b[0] || (a[0] == b[0] && Less(a[1..], b[1..])))
  }

  lemma {:induction false} LessIsStrict(a: Name, b: Name)
    requires Less(a, b)
    ensures a != b && !Less(b, a)
  {
    if a != "" && a[0] == b[0] {
      LessIsStrict(a[1..], b[1..]);
    }
  }

  ghost predicate Sorted(names: seq<Name>) {
    && (forall i :: 0 <= i < |names| ==> names[i] != "")
    && (forall i, j :: 0 <= i < j < |names| ==> Less(names[i], names[j]))
  }

  /** The names after `after`. */
  function ListedAfter(names: seq<Name>, after: Name): seq<Name> {
    if names == [] then []
    else if Less(after, names[0]) then names
    else ListedAfter(names[1..], after)
  }

  /** Exactly those that are greater than `after` are listed, in order. */
  lemma {:induction false} ListedAfterIff(names: seq<Name>, after: Name, k: nat)
    requires Sorted(names) && k <= |names|
    requires (forall i :: 0 <= i < k ==> !Less(after, names[i])) && (forall i :: k <= i < |names| ==> Less(after, names[i]))
    ensures ListedAfter(names, after) == names[k..]
  {
    if k > 0 {
      ListedAfterIff(names[1..], after, k - 1);
    }
  }

  // ---- the filer ---------------------------------------------------------------------------------

  const PAGE_SIZE := 1000

  datatype Listing = Page(names: seq<Name>, last: Name, hasMore: bool) | NotFound | ListFailed

  /** One directory of the filer: its children in order, whether it is there itself, and the requests
      that have deleted something. */
  class Filer {
    const reliable: bool  // no request fails
    var present: bool
    var children: seq<Name>
    ghost var deleted: seq<Name>
    ghost var lostWithRoot: seq<Name>  // children that were still there when the directory was deleted

    constructor (children: seq<Name>, reliable: bool)
      requires Sorted(children)
      ensures Valid() && present && this.children == children && this.reliable == reliable && deleted == [] && lostWithRoot == []
    {
      this.children, this.reliable := children, reliable;
      present, deleted, lostWithRoot := true, [], [];
    }

    ghost predicate Valid()
      reads this
    {
      Sorted(children) && (!present ==> children == [])
    }

    /** listFilerChildrenPage. The library asks for one entry more than `limit` to see whether it has
        reached the end. */
    method ListChildren(after: Name, limit: nat) returns (r: Listing)
      requires limit > 0 && Sorted(children)
      ensures (r.NotFound? ==> !present) && (reliable ==> !r.ListFailed?)
      ensures r.Page? ==>
                var listed := ListedAfter(children, after);
                && r.names == listed[..if |listed| < limit then |listed| else limit]
                && r.last == (if r.names == [] then "" else r.names[|r.names| - 1])
                && r.hasMore == (|listed| > limit)
    {
      if !reliable {
        if * {
          return ListFailed;
        }
      }
      if !present {
        return NotFound;
      }
      var listed := ListedAfter(children, after);
      var page := listed[..if |listed| < limit then |listed| else limit];
      var sawLast := page != [] && |listed| <= limit;
      r := Page(page, if page == [] then "" else page[|page| - 1], |page| > 0 && !sawLast);
    }

    /** A delete that reports an error may have been carried out. */
    method DeleteFirst(name: Name) returns (ok: bool)
      requires Valid() && children != [] && children[0] == name
      modifies this`children, this`deleted
      ensures Valid() && (ok ==> children == old(children)[1..]) && (reliable ==> ok)
      ensures (children == old(children) && deleted == old(deleted)) || (children == old(children)[1..] && deleted == old(deleted) + [name])
    {
      ok := *;
      ok := ok || reliable;
      var carriedOut := *;
      if ok || carriedOut {
        children := children[1..];
        deleted := deleted + [name];
      }
    }

    /** The directory and everything that is left in it. */
    method DeleteRoot() returns (ok: bool)
      requires Valid()
      modifies this`present, this`children, this`lostWithRoot
      ensures Valid() && (ok ==> !present) && (reliable ==> ok)
      ensures lostWithRoot == old(lostWithRoot) || lostWithRoot == old(lostWithRoot) + old(children)
      ensures lostWithRoot == old(lostWithRoot) ==> children == old(children)
    {
      ok := *;
      ok := ok || reliable;
      var carriedOut := *;
      if ok || carriedOut {
        lostWithRoot := lostWithRoot + children;
        present, children := false, [];
      }
    }
  }

  // ---- emptying ----------------------------------------------------------------------------------

  /** The first children of the directory have been deleted, each by one request, in the order of the
      listing. */
  ghost predicate PrefixDeleted(before: seq<Name>, deletedBefore: seq<Name>, filer: Filer, k: nat)
    reads filer
  {
    k <= |before| && filer.children == before[k..] && filer.deleted == deletedBefore + before[..k]
  }

  /** emptyBucketChildren, without the question whether this is a bucket at all. */
  method EmptyChildren(filer: Filer) returns (ok: bool)
    requires filer.Valid()
    modifies filer`children, filer`deleted
    ensures filer.Valid()
    ensures exists k :: PrefixDeleted(old(filer.children), old(filer.deleted), filer, k)
    ensures (ok ==> filer.children == []) && (filer.reliable ==> ok)
  {
    ghost var all, log, k := filer.children, filer.deleted, 0;
    var after := "";
    while true
      invariant filer.Valid() && PrefixDeleted(all, log, filer, k)
      invariant after == if k == 0 then "" else all[k - 1]
      decreases |filer.children|
    {
      RemainingAreListed(all, k);
      var r := filer.ListChildren(after, PAGE_SIZE);
      if r.NotFound? {
        return true;
      }
      if r.ListFailed? {
        assert PrefixDeleted(all, log, filer, k);
        return false;
      }
      ok, k := DeletePage(filer, r.names, all, log, k);
      if !ok {
        return;
      }
      if !r.hasMore || r.last == "" {
        return;
      }
      after := r.last;
    }
  }

  lemma RemainingAreListed(all: seq<Name>, k: nat)
    requires Sorted(all) && k <= |all|
    ensures ListedAfter(all[k..], if k == 0 then "" else all[k - 1]) == all[k..]
  {
    ListedAfterIff(all[k..], if k == 0 then "" else all[k - 1], 0);
  }

  /** The children of one page, which are the next ones. */
  method DeletePage(filer: Filer, page: seq<Name>, ghost all: seq<Name>, ghost log: seq<Name>, ghost k: nat) returns (ok: bool, ghost k': nat)
    requires filer.Valid() && PrefixDeleted(all, log, filer, k) && page <= filer.children
    modifies filer`children, filer`deleted
    ensures filer.Valid() && PrefixDeleted(all, log, filer, k') && k <= k'
    ensures (ok ==> k' == k + |page|) && (filer.reliable ==> ok)
  {
    k' := k;
    for i := 0 to |page|
      invariant filer.Valid() && PrefixDeleted(all, log, filer, k') && k' == k + i
      invariant page[i..] <= filer.children
    {
      ghost var before := filer.children;
      ok := filer.DeleteFirst(page[i]);
      if filer.children != before {
        assert all[k'..][1..] == all[k' + 1..] && all[..k'] + [page[i]] == all[..k' + 1];
        k' := k' + 1;
      }
      if !ok {
        return;
      }
    }
    ok := true;
  }

  /** emptyBucketChildren. A volume that is not directly below the bucket directory is left alone, and
      so is everything if it cannot be found out what the bucket directory is. */
  method EmptyBucketChildren(filer: Filer, parentDir: string, bucketDir: string, bucketDirKnown: bool) returns (ok: bool)
    requires filer.Valid()
    modifies filer`children, filer`deleted
    ensures filer.Valid()
    ensures exists k :: PrefixDeleted(old(filer.children), old(filer.deleted), filer, k)
    ensures !bucketDirKnown || parentDir != bucketDir ==> ok == bucketDirKnown && filer.children == old(filer.children) && filer.deleted == old(filer.deleted)
    ensures ok && parentDir == bucketDir ==> filer.children == []
    ensures filer.reliable && bucketDirKnown ==> ok
  {
    if !bucketDirKnown || parentDir != bucketDir {
      assert PrefixDeleted(filer.children, filer.deleted, filer, 0);
      return bucketDirKnown;
    }
    ok := EmptyChildren(filer);
  }

  /** The directory of a volume: no child of a bucket goes with the bucket; each has been deleted by
      itself. If that fails, the bucket stays, and if the bucket directory is unknown, everything does. */
  method DeleteDirectory(filer: Filer, parentDir: string, bucketDir: string, bucketDirKnown: bool) returns (ok: bool)
    requires filer.Valid()
    modifies filer
    ensures filer.Valid()
    ensures (ok ==> !filer.present) && (filer.reliable && bucketDirKnown ==> ok)
    ensures parentDir == bucketDir ==> filer.lostWithRoot == old(filer.lostWithRoot)
    ensures parentDir == bucketDir ==> exists k :: PrefixDeleted(old(filer.children), old(filer.deleted), filer, k)
    ensures parentDir == bucketDir && ok ==> filer.deleted == old(filer.deleted) + old(filer.children)
    ensures filer.present != old(filer.present) ==> filer.children == []
    ensures !bucketDirKnown ==> !ok && filer.present == old(filer.present) && filer.children == old(filer.children)
                                && filer.deleted == old(filer.deleted) && filer.lostWithRoot == old(filer.lostWithRoot)
  {
    ok := EmptyBucketChildren(filer, parentDir, bucketDir, bucketDirKnown);
    if ok {
      ghost var before, log := old(filer.children), old(filer.deleted);
      ghost var k := NumberDeleted(before, log, filer);
      ok := filer.DeleteRoot();
      assert filer.lostWithRoot == old(filer.lostWithRoot) ==> PrefixDeleted(before, log, filer, k);
    }
  }

  /** DeleteVolume. The persisted parameters go last, under the ID of the request, and those of no other
      volume go; that this fails does not make the call fail. */
  method DeleteVolume(filer: Filer, store: VacStore.FilerVacStore, volumeID: string, parentDir: string, bucketDir: string, bucketDirKnown: bool) returns (ok: bool)
    requires filer.Valid() && IsBytes(volumeID)
    modifies filer, store
    ensures filer.Valid()
    ensures (ok ==> !filer.present) && (filer.reliable && bucketDirKnown && volumeID != "" ==> ok)
    ensures parentDir == bucketDir ==> filer.lostWithRoot == old(filer.lostWithRoot)
    ensures parentDir == bucketDir ==> exists k :: PrefixDeleted(old(filer.children), old(filer.deleted), filer, k)
    ensures parentDir == bucketDir && ok ==> filer.deleted == old(filer.deleted) + old(filer.children)
    ensures !bucketDirKnown || volumeID == "" ==> !ok && filer.children == old(filer.children) && filer.present == old(filer.present)
    ensures !ok ==> store.entries == old(store.entries)
    ensures forall w :: IsBytes(w) && w != volumeID ==> VacStore.Stored(store.entries, w) == old(VacStore.Stored(store.entries, w))
    ensures ok && store.filers != [] && store.reliable ==> VacStore.Stored(store.entries, volumeID).None?
  {
    if volumeID == "" {
      assert PrefixDeleted(filer.children, filer.deleted, filer, 0);
      return false;
    }
    ok := DeleteDirectory(filer, parentDir, bucketDir, bucketDirKnown);
    if ok {
      ghost var before := store.entries;
      ghost var k: nat := 0;
      if parentDir == bucketDir {
        k :| PrefixDeleted(old(filer.children), old(filer.deleted), filer, k);
      }
      var deleted := store.Delete(volumeID);
      assert parentDir == bucketDir ==> PrefixDeleted(old(filer.children), old(filer.deleted), filer, k);
      forall w | IsBytes(w)
        ensures VacStore.Stored(VacStore.Effect(before, VacStore.Remove, VacStore.VacPath(volumeID)), w) == if w == volumeID then None else VacStore.Stored(before, w)
      {
        VacStore.EffectOnStored(before, VacStore.Remove, volumeID, w);
      }
    }
  }

  /** How many children have been deleted; all, if none are left. */
  lemma NumberDeleted(before: seq<Name>, log: seq<Name>, filer: Filer) returns (k: nat)
    requires exists i :: PrefixDeleted(before, log, filer, i)
    ensures PrefixDeleted(before, log, filer, k) && (filer.children == [] ==> filer.deleted == log + before)
  {
    k :| PrefixDeleted(before, log, filer, k);
    if filer.children == [] {
      assert k == |before| && before[..k] == before;
    }
  }

  /** Names are listed once, so no child is deleted twice. */
  lemma DeletedOnce(names: seq<Name>, i: nat, j: nat)
    requires Sorted(names) && i < j < |names|
    ensures names[i] != names[j]
  {
    LessIsStrict(names[i], names[j]);
  }
}
