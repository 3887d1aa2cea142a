/**
 * Where the edits of opened files go: the handler of watched files looks a
 * local path up in the index and picks the bucket by the record it finds.
 */
module OpenEdits {
  import opened Wrappers
  import opened OpenFiles

  /** An item of an own bucket, or of a bucket in somebody's database. */
  datatype Target = Target(slug: string, database: Option<string>, path: string)

  /** Where a file at the place is read from when it is opened. */
  function TargetOf(p: Place): Target {
    Target(p.slug, if p.dbId == "" then None else Some(p.dbId), p.path)
  }

  class WatcherHandler {
    const sync: BucketSynchronizer

    constructor (sync: BucketSynchronizer)
      ensures this.sync == sync
    {
      this.sync := sync;
    }

    /** The item that is written when the content of a watched file changes. */
    method OnWrite(localPath: string) returns (target: Option<Target>)
      ensures target == WrittenAt(sync.store, localPath)
    {
      var f := sync.GetOpenFileBucketSlugAndPath(localPath);
      if f.None? { return None; }
      if f.value.isRemote {
        target := Some(Target(f.value.bucketSlug, Some(f.value.dbId), f.value.bucketPath));
      } else {
        target := Some(Target(f.value.bucketSlug, None, f.value.bucketPath));
      }
    }

    /** The item that is deleted when a watched file is removed: always in an own bucket. */
    method OnRemove(localPath: string) returns (target: Option<Target>)
      ensures target == RemovedAt(sync.store, localPath)
    {
      var f := sync.GetOpenFileBucketSlugAndPath(localPath);
      if f.None? { return None; }
      target := Some(Target(f.value.bucketSlug, None, f.value.bucketPath));
    }
  }

  function WrittenAt(store: Store, localPath: string): Option<Target> {
    match Resolve(store, localPath)
    case None => None
    case Some(f) => Some(Target(f.bucketSlug, if f.isRemote then Some(f.dbId) else None, f.bucketPath))
  }

  function RemovedAt(store: Store, localPath: string): Option<Target> {
    match Resolve(store, localPath)
    case None => None
    case Some(f) => Some(Target(f.bucketSlug, None, f.bucketPath))
  }

  // ---------------------------------------------------------------------
  // True records
  // ---------------------------------------------------------------------

  /** The key of the bucket with a slug, the own one or the one in a database. */
  type BucketKeys = (string, string) -> string

  /** The record is remote exactly when it names a database, and holds its bucket's own key. */
  predicate IsTrue(f: WatchFile, keys: BucketKeys) {
    && (f.isRemote <==> f.dbId != "")
    && f.bucketKey == keys(f.bucketSlug, f.dbId)
  }

  predicate AllTrue(store: Store, keys: BucketKeys) {
    forall k :: k in store ==> IsTrue(store[k], keys)
  }

  /** No reverse entry uses the local path. */
  predicate Unused(store: Store, localPath: string) {
    forall k :: k in store && !(FORWARD_PREFIX <= k) ==> store[k].localPath != localPath
  }

  /** What the index holds is in step, free of misleading colons, and true. */
  predicate Sound(store: Store, keys: BucketKeys) {
    Inv(store) && AllClean(store) && AllTrue(store, keys)
  }

  /**
   * Opens of a bucket's item under a new local path, adds of true records
   * under such paths, and restarts whose removals complete.
   */
  predicate IsProper(store: Store, e: Event, keys: BucketKeys) {
    match e
    case Opening(a) =>
      && Clean(PlaceIn(a)) && a.b.key == keys(a.b.slug, a.dbId)
      && (a.luck.tmp.Some? ==> Unused(store, a.luck.tmp.value))
    case Indexing(Add(f, _)) => Clean(PlaceOf(f)) && IsTrue(f, keys) && Unused(store, f.localPath)
    case Indexing(Restart(gone, both)) => gone <= both
    case Vanishing(_) => true
  }

  lemma PutStaysSound(store: Store, f: WatchFile, writes: nat, keys: BucketKeys)
    requires Sound(store, keys) && Clean(PlaceOf(f)) && IsTrue(f, keys) && Unused(store, f.localPath)
    ensures Sound(Put(store, f, writes), keys)
  {
    if writes > 0 {
      AddKeepsIff(store, f, writes);
    }
  }

  lemma StepStaysSound(r: Opened, e: Event, keys: BucketKeys)
    requires Sound(r.store, keys) && IsProper(r.store, e, keys)
    ensures Sound(Next(r, e).store, keys)
  {
    match e
    case Opening(a) =>
      if Next(r, e).store != r.store {
        PutStaysSound(r.store, Record(a.b, PlaceIn(a), a.luck.tmp.value), a.luck.writes, keys);
      }
    case Indexing(Add(f, writes)) => PutStaysSound(r.store, f, writes, keys);
    case Indexing(Restart(gone, both)) => ReloadKeeps(r.store, gone, both);
    case Vanishing(_) =>
  }

  predicate AllProper(r: Opened, events: seq<Event>, keys: BucketKeys) {
    forall i :: 0 <= i < |events| ==> IsProper(NextAll(r, events[..i]).store, events[i], keys)
  }

  /** Over any run of such events every record stays true. */
  lemma {:induction false} RecordsStayTrue(r: Opened, events: seq<Event>, keys: BucketKeys)
    requires Sound(r.store, keys) && AllProper(r, events, keys)
    ensures Sound(NextAll(r, events).store, keys)
  {
    if events != [] {
      var n := |events| - 1;
      forall i | 0 <= i < n ensures events[..n][..i] == events[..i] {
      }
      RecordsStayTrue(r, events[..n], keys);
      StepStaysSound(NextAll(r, events[..n]), events[n], keys);
    }
  }

  /** In a sound index the local path found for a place leads to a true record of exactly that place. */
  lemma FoundIsTrue(store: Store, p: Place, keys: BucketKeys)
    requires Sound(store, keys) && Clean(p) && p.slug != "" && Lookup(store, p).Some?
    ensures var f := Resolve(store, Lookup(store, p).value);
      && f.Some? && PlaceOf(f.value) == p
      && (f.value.isRemote <==> p.dbId != "") && f.value.bucketKey == keys(p.slug, p.dbId)
    ensures WrittenAt(store, Lookup(store, p).value) == Some(TargetOf(p))
  {
    FoundResolvesBack(store, p);
  }

  /**
   * After any run of such events from an empty index, a file that an open
   * returns is registered under a record that is remote exactly when a
   * database was named, with the bucket's own key, and what is written to the
   * file goes to the very item it was read from.
   */
  lemma EditsReachTheItem(events: seq<Event>, a: Access, keys: BucketKeys)
    requires AllProper(Opened(map[], {}, None), events + [Opening(a)], keys) && a.b.slug != ""
    ensures var r := NextAll(Opened(map[], {}, None), events + [Opening(a)]);
      r.location.Some? ==>
        && r.location.value in r.files
        && WrittenAt(r.store, r.location.value) == Some(TargetOf(PlaceIn(a)))
        && Resolve(r.store, r.location.value).Some?
        && var f := Resolve(r.store, r.location.value).value;
           && PlaceOf(f) == PlaceIn(a) && f.localPath == r.location.value
           && (f.isRemote <==> a.dbId != "") && f.bucketKey == a.b.key
  {
    var start, all := Opened(map[], {}, None), events + [Opening(a)];
    assert all[..|events|] == events;
    assert IsProper(NextAll(start, all[..|events|]).store, all[|events|], keys);
    RecordsStayTrue(start, all, keys);
    var before := NextAll(start, events);
    assert NextAll(start, all) == Next(before, Opening(a));
    OpenedIsRegistered(before.store, before.files, a.b, a.path, a.dbId, a.cid, a.luck);
    var r := NextAll(start, all);
    if r.location.Some? {
      FoundIsTrue(r.store, PlaceIn(a), keys);
      FoundResolvesBack(r.store, PlaceIn(a));
    }
  }

  /** And as long as the file stays open, whatever proper and sparing events follow. */
  lemma EditsGoOnReaching(r: Opened, p: Place, location: string, events: seq<Event>, keys: BucketKeys)
    requires Sound(r.store, keys) && AllProper(r, events, keys) && p.slug != ""
    requires Clean(p) && IsOpen(r, p, location) && SparesAll(r, events, p, location)
    ensures WrittenAt(NextAll(r, events).store, location) == Some(TargetOf(p))
  {
    RecordsStayTrue(r, events, keys);
    OpenAgainLater(r, p, location, events);
    FoundIsTrue(NextAll(r, events).store, p, keys);
  }

  /** Removing a watched file deletes the item it was read from exactly when it is a file of an own bucket. */
  lemma RemovalReachesIff(store: Store, p: Place, keys: BucketKeys)
    requires Sound(store, keys) && Clean(p) && p.slug != "" && Lookup(store, p).Some?
    ensures RemovedAt(store, Lookup(store, p).value) == Some(TargetOf(p)) <==> p.dbId == ""
    ensures RemovedAt(store, Lookup(store, p).value) == Some(Target(p.slug, None, p.path))
  {
    FoundIsTrue(store, p, keys);
  }

  // ---------------------------------------------------------------------
  // When an open succeeds
  // ---------------------------------------------------------------------

  /**
   * An open of a place that is not known, or whose file is gone, gives a
   * location exactly when nothing fails on the way and neither the new local
   * path nor the bucket's key nor the item's path is empty.
   */
  lemma OpensIff(store: Store, files: set<string>, b: Bucket, path: string, dbId: string, cid: string, luck: Luck)
    requires var known := Lookup(store, Place(b.slug, path, dbId, cid)); known.None? || known.value !in files
    ensures Open(store, files, b, path, dbId, cid, luck).location.Some? <==>
      && luck.listed && luck.tmp.Some? && luck.fetched && luck.writes >= 2 && luck.watched
      && luck.tmp.value != "" && b.key != "" && path != ""
  {
  }

  /** All that an open registers has a local path, a bucket key and a path. */
  predicate AllFilled(store: Store) {
    forall k :: k in store ==> store[k].localPath != "" && store[k].bucketKey != "" && store[k].bucketPath != ""
  }

  lemma OpenStaysFilled(store: Store, files: set<string>, b: Bucket, path: string, dbId: string, cid: string,
                        luck: Luck)
    requires AllFilled(store)
    ensures AllFilled(Open(store, files, b, path, dbId, cid, luck).store)
  {
  }

  /** So over any run of opens, restarts and disappearing files every record is complete. */
  lemma {:induction false} RecordsStayFilled(r: Opened, events: seq<Event>)
    requires AllFilled(r.store) && forall i :: 0 <= i < |events| ==> !(events[i].Indexing? && events[i].op.Add?)
    ensures AllFilled(NextAll(r, events).store)
  {
    if events != [] {
      var n := |events| - 1;
      RecordsStayFilled(r, events[..n]);
      var before, e := NextAll(r, events[..n]), events[n];
      if e.Opening? {
        var a := e.a;
        OpenStaysFilled(before.store, before.files, a.b, a.path, a.dbId, a.cid, a.luck);
      }
    }
  }
}
