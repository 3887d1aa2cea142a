/**
 * The three pullers of the race and the cache of pulled files.
 *
 * A cid is modelled as the content it addresses together with a codec, so two
 * cids can name the same content and no two contents share a cid.
 */
module FileCache {
  import opened Wrappers
  import PullRace

  type Bytes = PullRace.Bytes
  type Path = string

  datatype Cid = Cid(codec: nat, content: Bytes)

  datatype PullError = NoItem | NotCached | BadCid | NotReachable | IsDirectory

  /** The bytes of a file_cache entry: a cid, or something that does not decode to one. */
  datatype Stored = Link(cid: Cid) | Garbage

  /**
   * The bucket's items, the file_cache entries, the local files and directories,
   * and the cids the network can serve.
   */
  datatype World = World(
    items: map<Path, Cid>, cache: map<Cid, Stored>, blocks: set<Cid>, folders: set<Cid>, dht: set<Cid>)

  function PullLocal(w: World, path: Path): (r: Result<Bytes, PullError>) {
    if path !in w.items then Err(NoItem)
    else if w.items[path] !in w.cache then Err(NotCached)
    else if w.cache[w.items[path]].Garbage? then Err(BadCid)
    else if w.cache[w.items[path]].cid in w.folders then Err(IsDirectory)
    else if w.cache[w.items[path]].cid !in w.blocks then Err(NotReachable)
    else Ok(w.cache[w.items[path]].cid.content)
  }

  function PullDht(w: World, path: Path): (r: Result<Bytes, PullError>) {
    if path !in w.items then Err(NoItem)
    else if w.items[path] !in w.dht then Err(NotReachable)
    else Ok(w.items[path].content)
  }

  /** A plain client pull that the bucket service answers. */
  function PullClient(w: World, path: Path): (r: Result<Bytes, PullError>) {
    if path !in w.items then Err(NoItem) else Ok(w.items[path].content)
  }

  /** The pullers in the order in which the race starts them. */
  function PullBy(puller: nat, w: World, path: Path): (r: Result<Bytes, PullError>) {
    if puller == 0 then PullLocal(w, path) else if puller == 1 then PullDht(w, path) else PullClient(w, path)
  }

  /** Adding the pulled bytes locally and recording them under the cid the path has at that moment. */
  function Fill(w: World, path: Path, bytes: Bytes, codec: nat): (r: Result<World, PullError>) {
    if path !in w.items then Err(NoItem)
    else
      var local := Cid(codec, bytes);
      Ok(w.(blocks := w.blocks + {local}, cache := w.cache[w.items[path] := Link(local)]))
  }

  class SecureBucketClient {
    var items: map<Path, Cid>
    var cache: map<Cid, Stored>
    var blocks: set<Cid>
    var folders: set<Cid>
    var dht: set<Cid>
    const isRemote: bool

    constructor (isRemote: bool, items: map<Path, Cid>, dht: set<Cid>)
      ensures this.isRemote == isRemote && Now() == World(items, map[], {}, {}, dht)
    {
      this.isRemote, this.items, this.dht := isRemote, items, dht;
      cache, blocks, folders := map[], {}, {};
    }

    function Now(): World
      reads this
    {
      World(items, cache, blocks, folders, dht)
    }

    method PullFileFromLocal(path: Path) returns (r: Result<Bytes, PullError>, shouldCache: bool)
      ensures r == PullLocal(Now(), path) && !shouldCache
    {
      shouldCache := false;
      if path !in items { return Err(NoItem), false; }
      var encCid := items[path];
      if encCid !in cache { return Err(NotCached), false; }
      var stored := cache[encCid];
      if stored.Garbage? { return Err(BadCid), false; }
      if stored.cid in folders { return Err(IsDirectory), false; }
      if stored.cid !in blocks { return Err(NotReachable), false; }
      r := Ok(stored.cid.content);
    }

    method PullFileFromDht(path: Path) returns (r: Result<Bytes, PullError>, shouldCache: bool)
      ensures r == PullDht(Now(), path) && !shouldCache
    {
      shouldCache := false;
      if path !in items { return Err(NoItem), false; }
      var encCid := items[path];
      if encCid !in dht { return Err(NotReachable), false; }
      r := Ok(encCid.content);
    }

    /** The pull from the bucket service, which may fail for an item that is there. */
    method PullFileFromClient(path: Path, served: bool) returns (r: Result<Bytes, PullError>, shouldCache: bool)
      ensures served ==> r == PullClient(Now(), path)
      ensures !served ==> r.Err?
      ensures shouldCache == (isRemote && r.Ok?)
    {
      shouldCache := isRemote;
      if path !in items { return Err(NoItem), false; }
      if !served { return Err(NotReachable), false; }
      r := Ok(items[path].content);
    }

    /** The cache phase, in which adding the block, finding the item or storing the entry may fail. */
    method FillCache(path: Path, bytes: Bytes, codec: nat, adds: bool, stores: bool) returns (ok: bool)
      modifies this`cache, this`blocks
      ensures ok <==> adds && stores && Fill(old(Now()), path, bytes, codec).Ok?
      ensures ok ==> Now() == Fill(old(Now()), path, bytes, codec).value
      ensures !ok && adds ==> Now() == old(Now()).(blocks := old(blocks) + {Cid(codec, bytes)})
      ensures !adds ==> Now() == old(Now())
    {
      if !adds { return false; }
      var local := Cid(codec, bytes);
      blocks := blocks + {local};
      if path !in items { return false; }
      if !stores { return false; }
      cache := cache[items[path] := Link(local)];
      ok := true;
    }
  }

  // ---------------------------------------------------------------------
  // Truth of the cache
  // ---------------------------------------------------------------------

  /** Every entry names content equal to the content of the cid it is filed under. */
  ghost predicate Truthful(w: World) {
    forall c :: c in w.cache && w.cache[c].Link? ==> w.cache[c].cid.content == c.content
  }

  /** Filling keeps the cache truthful exactly when the path still has the content that was pulled. */
  lemma FillKeepsTruthIff(w: World, path: Path, bytes: Bytes, codec: nat)
    requires Truthful(w) && path in w.items
    ensures Truthful(Fill(w, path, bytes, codec).value) <==> bytes == w.items[path].content
  {
    var w' := Fill(w, path, bytes, codec).value;
    assert w.items[path] in w'.cache && w'.cache[w.items[path]].cid.content == bytes;
  }

  datatype Event =
    | ItemChanges(path: Path, cid: Cid)
    | ItemRemoved(path: Path)
    | BlocksChange(blocks: set<Cid>, folders: set<Cid>)
    | EntryLost(cid: Cid, damaged: bool)
    | DhtChanges(dht: set<Cid>)
    | Filled(path: Path, bytes: Bytes, codec: nat)

  function Next(w: World, e: Event): World {
    match e
    case ItemChanges(path, cid) => w.(items := w.items[path := cid])
    case ItemRemoved(path) => w.(items := w.items - {path})
    case BlocksChange(blocks, folders) => w.(blocks := blocks, folders := folders)
    case EntryLost(cid, damaged) => w.(cache := if damaged then w.cache[cid := Garbage] else w.cache - {cid})
    case DhtChanges(dht) => w.(dht := dht)
    case Filled(path, bytes, codec) =>
      var r := Fill(w, path, bytes, codec);
      if r.Ok? then r.value else w.(blocks := w.blocks + {Cid(codec, bytes)})
  }

  function After(w: World, events: seq<Event>): World {
    if events == [] then w else Next(After(w, events[..|events| - 1]), events[|events| - 1])
  }

  /** The world after the first t events. */
  function WorldAt(w: World, events: seq<Event>, t: nat): World
    requires t <= |events|
  {
    After(w, events[..t])
  }

  ghost predicate TrueUpTo(w: World, events: seq<Event>, t: nat)
    requires t <= |events|
  {
    forall j: nat {:trigger WorldAt(w, events, j)} :: j <= t ==> Truthful(WorldAt(w, events, j))
  }

  /** A fill that records bytes other than those the path has at that moment. */
  predicate IsStale(w: World, e: Event) {
    e.Filled? && e.path in w.items && e.bytes != w.items[e.path].content
  }

  lemma NextKeepsTruthIff(w: World, events: seq<Event>, t: nat)
    requires t < |events| && Truthful(WorldAt(w, events, t))
    ensures Truthful(WorldAt(w, events, t + 1)) <==> !IsStale(WorldAt(w, events, t), events[t])
  {
    assert events[..t + 1][..t] == events[..t] && events[..t + 1][t] == events[t];
    var now, e := WorldAt(w, events, t), events[t];
    assert WorldAt(w, events, t + 1) == Next(now, e);
    if e.Filled? && e.path in now.items {
      FillKeepsTruthIff(now, e.path, e.bytes, e.codec);
    }
  }

  /** Over any history, the cache is truthful at every moment if and only if no fill is stale. */
  lemma {:induction false} HistoryKeepsTruthIff(w: World, events: seq<Event>, n: nat)
    requires Truthful(w) && n <= |events|
    ensures TrueUpTo(w, events, n) <==>
      forall t: nat :: t < n ==> !IsStale(WorldAt(w, events, t), events[t])
  {
    if n == 0 {
      assert events[..0] == [];
    } else {
      HistoryKeepsTruthIff(w, events, n - 1);
      if Truthful(WorldAt(w, events, n - 1)) {
        NextKeepsTruthIff(w, events, n - 1);
      }
    }
  }

  /** When the item changes between the pull and the fill, later cached pulls of the path are wrong. */
  lemma StaleFillIsServed(path: Path, old_: Cid, new_: Cid, codec: nat)
    requires old_.content != new_.content
    ensures var w := World(map[path := old_], map[], {}, {}, {});
      var pulled := PullClient(w, path).value;
      var w' := After(w, [ItemChanges(path, new_), Filled(path, pulled, codec)]);
      Truthful(w) && PullLocal(w', path) == Ok(old_.content) != PullClient(w', path)
  {
    var w := World(map[path := old_], map[], {}, {}, {});
    var e1, e2 := ItemChanges(path, new_), Filled(path, old_.content, codec);
    assert [e1, e2][..1] == [e1] && [e1][..0] == [];
    assert After(w, [e1]) == Next(w, e1);
    assert After(w, [e1, e2]) == Next(Next(w, e1), e2);
  }

  // ---------------------------------------------------------------------
  // The race refines a plain client pull
  // ---------------------------------------------------------------------

  /** Each pull that succeeds in the run has written what its puller finds in the world of that moment. */
  ghost predicate PullsSee(run: seq<PullRace.State>, acts: seq<PullRace.Action>, worlds: seq<World>, path: Path)
    requires |run| == |worlds| == |acts| + 1
  {
    forall k :: 0 <= k < |acts| && acts[k].EndPull? && acts[k].result.Succeeded? && acts[k].i < |run[k].pullers| ==>
      PullBy(acts[k].i, worlds[k], path) == Ok(run[k].pullers[acts[k].i].file)
  }

  /** A puller that has succeeded did so at some step. */
  lemma {:induction false} SuccessStep(run: seq<PullRace.State>, acts: seq<PullRace.Action>, m: nat, i: nat)
    returns (k: nat)
    requires PullRace.IsRun(run, acts) && m < |run|
    requires i < |run[m].pullers| && run[m].pullers[i].pulled.Succeeded?
    ensures k < m && i < |run[k].pullers| && acts[k].EndPull? && acts[k].i == i && acts[k].result.Succeeded?
    ensures run[k + 1].pullers[i].pulled.Succeeded? && run[k + 1].pullers[i].file == run[k].pullers[i].file
  {
    PullRace.PullersStay(run, acts, m);
    PullRace.PullersStay(run, acts, m - 1);
    if run[m - 1].pullers[i].pulled.Succeeded? {
      k := SuccessStep(run, acts, m - 1, i);
    } else {
      PullRace.SucceedsByEnding(run[m - 1], acts[m - 1], i);
      k := m - 1;
    }
  }

  /** In truthful worlds in which the item stays the same, the copied bytes are the item's. */
  lemma CopiesTheItem(run: seq<PullRace.State>, acts: seq<PullRace.Action>, worlds: seq<World>, path: Path, item: Cid)
    requires PullRace.IsRun(run, acts) && |worlds| == |run| && PullsSee(run, acts, worlds, path)
    requires forall k :: 0 <= k < |worlds| ==>
               Truthful(worlds[k]) && path in worlds[k].items && worlds[k].items[path] == item
    requires run[|acts|].outcome.Copied?
    ensures run[|acts|].outcome.bytes == item.content
  {
    var m := |acts|;
    PullRace.DecidedOutcome(run, acts, m);
    var w := run[m].outcome.winner;
    var k := SuccessStep(run, acts, m, w);
    PullRace.FileFrozen(run, acts, k + 1, m, w);
    assert PullBy(w, worlds[k], path) == Ok(run[k].pullers[w].file);
  }

  // ---------------------------------------------------------------------
  // Any number of overlapping calls
  // ---------------------------------------------------------------------

  /**
   * A call of the race within a history: at[k] events have happened when the
   * race is in its state k, and end events when the call is over.
   */
  datatype Call = Call(
    path: Path, run: seq<PullRace.State>, acts: seq<PullRace.Action>, at: seq<nat>, end: nat)

  ghost predicate Happens(w: World, events: seq<Event>, c: Call) {
    && PullRace.IsRun(c.run, c.acts)
    && |c.at| == |c.run| && c.end <= |events|
    && (forall k :: 0 <= k < |c.at| ==> c.at[0] <= c.at[k] <= c.end)
    && PullsSee(c.run, c.acts, WorldsOf(w, events, c), c.path)
  }

  ghost function WorldsOf(w: World, events: seq<Event>, c: Call): (worlds: seq<World>)
    requires forall k :: 0 <= k < |c.at| ==> c.at[k] <= |events|
    ensures |worlds| == |c.at|
    ensures forall k :: 0 <= k < |c.at| ==> worlds[k] == WorldAt(w, events, c.at[k])
  {
    seq(|c.at|, k requires 0 <= k < |c.at| => WorldAt(w, events, c.at[k]))
  }

  /** The item at the path of the call is the given one from its start to its end. */
  ghost predicate ItemStays(w: World, events: seq<Event>, c: Call, item: Cid)
    requires |c.at| > 0 && c.end <= |events|
  {
    forall t: nat {:trigger WorldAt(w, events, t)} :: c.at[0] <= t <= c.end ==>
      c.path in WorldAt(w, events, t).items && WorldAt(w, events, t).items[c.path] == item
  }

  ghost predicate Undisturbed(w: World, events: seq<Event>, c: Call) {
    Happens(w, events, c) && exists item :: ItemStays(w, events, c, item)
  }

  predicate CopiedBytes(c: Call, bytes: Bytes) {
    && |c.run| == |c.acts| + 1
    && c.run[|c.acts|].outcome.Copied? && c.run[|c.acts|].outcome.bytes == bytes
  }

  /** Every fill is the last thing some call does, and files what that call has copied. */
  ghost predicate FilledByCalls(events: seq<Event>, calls: set<Call>) {
    forall k :: 0 <= k < |events| && events[k].Filled? ==>
      exists c :: c in calls && FilledBy(events[k], k, c)
  }

  predicate FilledBy(e: Event, k: nat, c: Call) {
    e.Filled? && c.path == e.path && c.end == k && CopiedBytes(c, e.bytes)
  }

  ghost predicate IsHistory(w: World, events: seq<Event>, calls: set<Call>) {
    && Truthful(w)
    && (forall c :: c in calls ==> Undisturbed(w, events, c))
    && FilledByCalls(events, calls)
  }

  lemma FillByUndisturbed(w: World, events: seq<Event>, c: Call, item: Cid, bytes: Bytes)
    requires Happens(w, events, c) && ItemStays(w, events, c, item) && CopiedBytes(c, bytes)
    requires forall k :: 0 <= k < |c.at| ==> Truthful(WorldAt(w, events, c.at[k]))
    ensures bytes == item.content
  {
    var worlds := WorldsOf(w, events, c);
    forall k | 0 <= k < |worlds|
      ensures Truthful(worlds[k]) && c.path in worlds[k].items && worlds[k].items[c.path] == item
    {
      assert worlds[k] == WorldAt(w, events, c.at[k]);
    }
    CopiesTheItem(c.run, c.acts, worlds, c.path, item);
  }

  /** What an undisturbed call files is never stale. */
  lemma FillNotStale(w: World, events: seq<Event>, calls: set<Call>, t: nat)
    requires IsHistory(w, events, calls) && t < |events| && TrueUpTo(w, events, t)
    ensures !IsStale(WorldAt(w, events, t), events[t])
  {
    var e := events[t];
    if e.Filled? {
      var c :| c in calls && FilledBy(e, t, c);
      assert Undisturbed(w, events, c);
      var item :| ItemStays(w, events, c, item);
      FillByUndisturbed(w, events, c, item, e.bytes);
      assert WorldAt(w, events, t).items[c.path] == item;
    }
  }

  /**
   * Over any history of item changes, lost blocks and entries, and fills by
   * any number of overlapping calls of the race, each of which finds its item
   * unchanged while it lasts, the cache is truthful at every moment.
   */
  lemma {:induction false} CacheStaysTrue(w: World, events: seq<Event>, calls: set<Call>, t: nat)
    requires IsHistory(w, events, calls) && t <= |events|
    ensures TrueUpTo(w, events, t)
  {
    if t == 0 {
      assert events[..0] == [];
    } else {
      CacheStaysTrue(w, events, calls, t - 1);
      FillNotStale(w, events, calls, t - 1);
      NextKeepsTruthIff(w, events, t - 1);
    }
  }

  /**
   * In such a history the race refines a plain client pull: what any call
   * copies out is what the client pull gives at every moment of the call,
   * whichever puller wins, and a pull from the cache is never wrong.
   */
  lemma RaceRefinesClientPull(w: World, events: seq<Event>, calls: set<Call>, c: Call, bytes: Bytes, t: nat)
    requires IsHistory(w, events, calls) && c in calls && CopiedBytes(c, bytes) && c.at[0] <= t <= c.end
    ensures PullClient(WorldAt(w, events, t), c.path) == Ok(bytes)
    ensures PullLocal(WorldAt(w, events, t), c.path).Ok? ==> PullLocal(WorldAt(w, events, t), c.path) == Ok(bytes)
  {
    var item :| ItemStays(w, events, c, item);
    CacheStaysTrue(w, events, calls, |events|);
    FillByUndisturbed(w, events, c, item, bytes);
    assert WorldAt(w, events, t).items[c.path] == item;
  }
}
