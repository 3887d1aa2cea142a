/**
 * What each of the three pullers gives after a history of events, told by the
 * events themselves: which item the path got last, which cids the network was
 * last said to serve, and what was last filed for the path.
 */
module PullHistory {
  import opened Wrappers
  import opened FileCache

  // ---------------------------------------------------------------------
  // The client and the network
  // ---------------------------------------------------------------------

  function ItemFirst(w: World, path: Path): Option<Cid> {
    if path in w.items then Some(w.items[path]) else None
  }

  /** The item the path has after the events: the one it was last changed to, unless it was removed since. */
  function ItemAfter(w: World, events: seq<Event>, path: Path): Option<Cid> {
    if events == [] then ItemFirst(w, path)
    else
      match events[|events| - 1]
      case ItemChanges(p, cid) => if p == path then Some(cid) else ItemAfter(w, events[..|events| - 1], path)
      case ItemRemoved(p) => if p == path then None else ItemAfter(w, events[..|events| - 1], path)
      case _ => ItemAfter(w, events[..|events| - 1], path)
  }

  /** What the network was last said to serve. */
  function ServedAfter(w: World, events: seq<Event>): set<Cid> {
    if events == [] then w.dht
    else if events[|events| - 1].DhtChanges? then events[|events| - 1].dht
    else ServedAfter(w, events[..|events| - 1])
  }

  lemma {:induction false} HistoryHolds(w: World, events: seq<Event>, path: Path)
    ensures ItemFirst(After(w, events), path) == ItemAfter(w, events, path)
    ensures After(w, events).dht == ServedAfter(w, events)
  {
    if events != [] {
      HistoryHolds(w, events[..|events| - 1], path);
    }
  }

  /** After any history the client pull gives the content of the item that the path got last, if it has one. */
  lemma ClientPullsIff(w: World, events: seq<Event>, path: Path, bytes: Bytes)
    ensures PullClient(After(w, events), path) == Ok(bytes) <==>
      exists c :: ItemAfter(w, events, path) == Some(c) && c.content == bytes
    ensures ItemAfter(w, events, path).None? ==> PullClient(After(w, events), path) == Err(NoItem)
  {
    HistoryHolds(w, events, path);
  }

  /**
   * After any history the network pull gives what the client pull gives exactly
   * when the path has an item and the network serves its cid; otherwise it
   * fails, for want of the item or of the cid.
   */
  lemma DhtPullsIff(w: World, events: seq<Event>, path: Path)
    ensures var now, item, served := After(w, events), ItemAfter(w, events, path), ServedAfter(w, events);
      && (PullDht(now, path).Ok? <==> item.Some? && item.value in served)
      && (PullDht(now, path).Ok? ==> PullDht(now, path) == PullClient(now, path))
      && (item.None? ==> PullDht(now, path) == Err(NoItem))
      && (item.Some? && item.value !in served ==> PullDht(now, path) == Err(NotReachable))
  {
    HistoryHolds(w, events, path);
  }

  // ---------------------------------------------------------------------
  // The cache
  // ---------------------------------------------------------------------

  /** The path's item has an entry for the local file, and the file is there. */
  predicate IsCached(w: World, path: Path, local: Cid) {
    && path in w.items && w.items[path] in w.cache && w.cache[w.items[path]] == Link(local)
    && local in w.blocks && local !in w.folders
  }

  /** A fill for a path with an item, whose block is no folder, is what the cache puller gives next. */
  lemma FilledIsServed(w: World, path: Path, bytes: Bytes, codec: nat)
    requires path in w.items && Cid(codec, bytes) !in w.folders
    ensures IsCached(Next(w, Filled(path, bytes, codec)), path, Cid(codec, bytes))
    ensures PullLocal(Next(w, Filled(path, bytes, codec)), path) == Ok(bytes)
  {
  }

  /** A fill for a path whose item is gone leaves the block and no entry. */
  lemma FilledWithoutItem(w: World, path: Path, bytes: Bytes, codec: nat)
    requires path !in w.items
    ensures Next(w, Filled(path, bytes, codec)).cache == w.cache
    ensures Cid(codec, bytes) in Next(w, Filled(path, bytes, codec)).blocks
  {
  }

  /**
   * The event leaves the path its cached file: the item stays, its entry is
   * neither lost nor filed anew, and the block stays and is no folder.
   */
  predicate Spares(w: World, e: Event, path: Path, local: Cid)
    requires path in w.items
  {
    match e
    case ItemChanges(p, cid) => p == path ==> cid in w.cache && w.cache[cid] == Link(local)
    case ItemRemoved(p) => p != path
    case BlocksChange(blocks, folders) => local in blocks && local !in folders
    case EntryLost(cid, _) => cid != w.items[path]
    case DhtChanges(_) => true
    case Filled(p, bytes, codec) =>
      p in w.items && w.items[p] == w.items[path] ==> Cid(codec, bytes) == local
  }

  lemma StaysCachedIff(w: World, e: Event, path: Path, local: Cid)
    requires IsCached(w, path, local)
    ensures IsCached(Next(w, e), path, local) <==> Spares(w, e, path, local)
  {
  }

  ghost predicate SparesAll(w: World, events: seq<Event>, path: Path, local: Cid) {
    forall i :: 0 <= i < |events| ==>
      path in After(w, events[..i]).items && Spares(After(w, events[..i]), events[i], path, local)
  }

  /** Over any history that spares it, the cached file goes on being served as it was filed. */
  lemma {:induction false} CachedStaysServed(w: World, events: seq<Event>, path: Path, local: Cid)
    requires IsCached(w, path, local) && SparesAll(w, events, path, local)
    ensures IsCached(After(w, events), path, local)
    ensures PullLocal(After(w, events), path) == Ok(local.content)
  {
    if events != [] {
      var n := |events| - 1;
      forall i | 0 <= i < n ensures events[..n][..i] == events[..i] {
      }
      CachedStaysServed(w, events[..n], path, local);
      StaysCachedIff(After(w, events[..n]), events[n], path, local);
    }
  }

  /** How the cache puller fails right after what it had cached is taken away. */
  lemma LostIsNotServed(w: World, path: Path, local: Cid, blocks: set<Cid>, folders: set<Cid>)
    requires IsCached(w, path, local)
    ensures PullLocal(Next(w, EntryLost(w.items[path], false)), path) == Err(NotCached)
    ensures PullLocal(Next(w, EntryLost(w.items[path], true)), path) == Err(BadCid)
    ensures PullLocal(Next(w, ItemRemoved(path)), path) == Err(NoItem)
    ensures PullLocal(Next(w, BlocksChange(blocks, folders)), path) ==
      if local in folders then Err(IsDirectory)
      else if local in blocks then Ok(local.content)
      else Err(NotReachable)
  {
  }

  /** The cache puller gives something exactly when the path's item is cached. */
  lemma LocalPullsIff(w: World, path: Path, bytes: Bytes)
    ensures PullLocal(w, path) == Ok(bytes) <==> exists local :: IsCached(w, path, local) && local.content == bytes
  {
    if PullLocal(w, path) == Ok(bytes) {
      assert IsCached(w, path, w.cache[w.items[path]].cid);
    }
  }

  /**
   * The race starts the cache puller first, the network puller second and the
   * client last: the first needs the file to be cached, the second the network
   * to serve it, and the last only the item.
   */
  lemma PullersInOrder(w: World, path: Path)
    requires path in w.items
    ensures PullBy(0, w, path).Ok? <==> exists local :: IsCached(w, path, local)
    ensures PullBy(1, w, path).Ok? <==> w.items[path] in w.dht
    ensures PullBy(2, w, path) == Ok(w.items[path].content)
  {
    if PullBy(0, w, path).Ok? {
      assert IsCached(w, path, w.cache[w.items[path]].cid);
    }
  }
}
