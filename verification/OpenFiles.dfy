/**
 * The index of files opened for editing: one flat key-value store with an
 * entry per local path and a reverse entry per place in a bucket, under keys
 * that are built by joining strings.
 */
module OpenFiles {
  import opened Wrappers

  /** A record of the index. */
  datatype WatchFile = WatchFile(
    dbId: string, localPath: string, bucketPath: string, bucketKey: string, bucketSlug: string,
    isRemote: bool, cid: string)

  /** What a reverse entry stands for: one version of one item of a bucket. */
  datatype Place = Place(slug: string, path: string, dbId: string, cid: string)

  type Store = map<string, WatchFile>

  const FORWARD_PREFIX := "openFiles#"
  const REVERSE_PREFIX := "reverseOpenFiles#"

  function PlaceOf(f: WatchFile): Place {
    Place(f.bucketSlug, f.bucketPath, f.dbId, f.cid)
  }

  function ForwardKey(localPath: string): string {
    FORWARD_PREFIX + localPath
  }

  function ReverseKey(p: Place): string {
    REVERSE_PREFIX + p.slug + ":" + p.path + ":" + p.dbId + ":" + p.cid
  }

  // ---------------------------------------------------------------------
  // The keys
  // ---------------------------------------------------------------------

  /** No key of one kind is found by a scan for the prefix of the other. */
  lemma PrefixesApart(localPath: string, p: Place)
    ensures FORWARD_PREFIX <= ForwardKey(localPath) && !(FORWARD_PREFIX <= ReverseKey(p))
    ensures REVERSE_PREFIX <= ReverseKey(p) && !(REVERSE_PREFIX <= ForwardKey(localPath))
  {
    assert ForwardKey(localPath)[0] == 'o';
    assert ReverseKey(p)[0] == 'r';
  }

  lemma ForwardKeyInjective(a: string, b: string)
    requires ForwardKey(a) == ForwardKey(b)
    ensures a == b
  {
    assert ForwardKey(a)[|FORWARD_PREFIX|..] == a;
    assert ForwardKey(b)[|FORWARD_PREFIX|..] == b;
  }

  predicate Clean(p: Place) {
    ':' !in p.slug && ':' !in p.dbId && ':' !in p.cid
  }

  lemma FirstColon(a: string, x: string, b: string, y: string)
    requires ':' !in a && ':' !in b && a + ":" + x == b + ":" + y
    ensures a == b && x == y
  {
    var whole := a + ":" + x;
    assert whole[|a|] == ':' && whole[|b|] == ':';
    if |a| != |b| {
      assert false;
    }
    assert whole[..|a|] == a && whole[..|b|] == b;
    assert whole[|a| + 1..] == x && whole[|b| + 1..] == y;
  }

  lemma LastColon(x: string, a: string, y: string, b: string)
    requires ':' !in a && ':' !in b && x + ":" + a == y + ":" + b
    ensures a == b && x == y
  {
    var whole := x + ":" + a;
    assert whole == y + ":" + b;
    assert whole[|x|] == ':' && whole[|y|] == ':';
    if |x| != |y| {
      assert false;
    }
    assert whole[..|x|] == x && whole[..|y|] == y;
    assert whole[|x| + 1..] == a && whole[|y| + 1..] == b;
  }

  /** Places whose slug, database id and cid hold no colon have different keys, whatever their paths hold. */
  lemma ReverseKeyInjective(p: Place, q: Place)
    requires Clean(p) && Clean(q) && ReverseKey(p) == ReverseKey(q)
    ensures p == q
  {
    var ps, qs := p.slug + ":" + p.path + ":" + p.dbId, q.slug + ":" + q.path + ":" + q.dbId;
    assert ReverseKey(p) == REVERSE_PREFIX + (ps + ":" + p.cid);
    assert ReverseKey(q) == REVERSE_PREFIX + (qs + ":" + q.cid);
    assert ReverseKey(p)[|REVERSE_PREFIX|..] == ps + ":" + p.cid;
    assert ReverseKey(q)[|REVERSE_PREFIX|..] == qs + ":" + q.cid;
    LastColon(ps, p.cid, qs, q.cid);
    LastColon(p.slug + ":" + p.path, p.dbId, q.slug + ":" + q.path, q.dbId);
    FirstColon(p.slug, p.path, q.slug, q.path);
  }

  /** A colon in a slug is enough for two items to share a key. */
  lemma ColonsCollide()
    ensures ReverseKey(Place("a:b", "c", "d", "e")) == ReverseKey(Place("a", "b:c", "d", "e"))
    ensures Place("a:b", "c", "d", "e") != Place("a", "b:c", "d", "e")
  {
  }

  // ---------------------------------------------------------------------
  // Operations on the store
  // ---------------------------------------------------------------------

  /** Adding a record when only the first writes of the two succeed. */
  function Put(store: Store, f: WatchFile, writes: nat): Store {
    if writes == 0 then store
    else if writes == 1 then store[ForwardKey(f.localPath) := f]
    else store[ForwardKey(f.localPath) := f][ReverseKey(PlaceOf(f)) := f]
  }

  function Lookup(store: Store, p: Place): Option<string> {
    var key := ReverseKey(p);
    if key in store && store[key].localPath != "" then Some(store[key].localPath) else None
  }

  function Resolve(store: Store, localPath: string): Option<WatchFile> {
    var key := ForwardKey(localPath);
    if key in store && store[key].bucketSlug != "" then Some(store[key]) else None
  }

  /** Removing a record when only the first removals of the two succeed. */
  function Without(store: Store, f: WatchFile, removals: nat): Store {
    if removals == 0 then store
    else if removals == 1 then store - {ForwardKey(f.localPath)}
    else store - {ForwardKey(f.localPath), ReverseKey(PlaceOf(f))}
  }

  /**
   * k is a key that a restart takes out when it looks at the given forward
   * keys: the forward keys of the local paths in gone, and the reverse keys of
   * those of them that are in both.
   */
  predicate Dropped(store: Store, keys: set<string>, gone: set<string>, both: set<string>, k: string) {
    exists f :: f in keys && f in store && store[f].localPath in gone
             && (k == f || (store[f].localPath in both && k == ReverseKey(PlaceOf(store[f]))))
  }

  function Reloaded(store: Store, keys: set<string>, gone: set<string>, both: set<string>): Store {
    map k | k in store && !Dropped(store, keys, gone, both, k) :: store[k]
  }

  function ForwardKeys(store: Store): set<string> {
    set k | k in store && FORWARD_PREFIX <= k
  }

  // ---------------------------------------------------------------------
  // The invariant
  // ---------------------------------------------------------------------

  /** Every reverse entry's record is also the forward entry of its local path. */
  predicate EntryInv(store: Store, k: string)
    requires k in store
  {
    var f := store[k];
    if FORWARD_PREFIX <= k then k == ForwardKey(f.localPath)
    else k == ReverseKey(PlaceOf(f)) && ForwardKey(f.localPath) in store && store[ForwardKey(f.localPath)] == f
  }

  /** Forward entries are filed under the local paths of their records. */
  predicate ForwardInv(store: Store) {
    forall k :: k in store && FORWARD_PREFIX <= k ==> k == ForwardKey(store[k].localPath)
  }

  predicate Inv(store: Store) {
    forall k :: k in store ==> EntryInv(store, k)
  }

  /** No reverse entry other than the one about to be written uses the local path. */
  predicate FreshFor(store: Store, f: WatchFile, writes: nat) {
    forall k :: k in store && !(FORWARD_PREFIX <= k) && store[k].localPath == f.localPath ==>
      if writes >= 2 then k == ReverseKey(PlaceOf(f)) else store[k] == f
  }

  /**
   * An add, complete or stopped between its writes, keeps the invariant exactly when
   * no other entry uses its local path.
   */
  lemma AddKeepsIff(store: Store, f: WatchFile, writes: nat)
    requires Inv(store) && writes > 0
    ensures Inv(Put(store, f, writes)) <==> FreshFor(store, f, writes)
  {
    var after := Put(store, f, writes);
    var fk, rk := ForwardKey(f.localPath), ReverseKey(PlaceOf(f));
    PrefixesApart(f.localPath, PlaceOf(f));
    if FreshFor(store, f, writes) {
      forall k | k in after ensures EntryInv(after, k) {
        if k != fk && k != rk {
          assert EntryInv(store, k);
          KeyOfOther(store, k, f);
        }
        if k == rk && writes == 1 {
          assert EntryInv(store, k);
          KeyOfOther(store, k, f);
        }
      }
    } else {
      var k :| k in store && !(FORWARD_PREFIX <= k) && store[k].localPath == f.localPath
        && !(if writes >= 2 then k == rk else store[k] == f);
      assert EntryInv(store, k);
      assert k != fk && after[k] == store[k];
      assert !EntryInv(after, k);
    }
  }

  lemma KeyOfOther(store: Store, k: string, f: WatchFile)
    requires k in store
    ensures ForwardKey(store[k].localPath) == ForwardKey(f.localPath) ==> store[k].localPath == f.localPath
    ensures ForwardKey(store[k].localPath) != ReverseKey(PlaceOf(f))
  {
    if ForwardKey(store[k].localPath) == ForwardKey(f.localPath) {
      ForwardKeyInjective(store[k].localPath, f.localPath);
    }
    PrefixesApart(store[k].localPath, PlaceOf(f));
  }

  /**
   * A restart keeps the invariant exactly when every reverse entry whose
   * forward entry it takes out is taken out with it.
   */
  lemma ReloadKeepsIff(store: Store, gone: set<string>, both: set<string>)
    requires Inv(store)
    ensures var keys := ForwardKeys(store);
      Inv(Reloaded(store, keys, gone, both)) <==>
        forall k :: k in store && !(FORWARD_PREFIX <= k) && store[k].localPath in gone ==>
          Dropped(store, keys, gone, both, k)
  {
    var keys := ForwardKeys(store);
    var after := Reloaded(store, keys, gone, both);
    forall k | k in after
      ensures EntryInv(after, k) <==> FORWARD_PREFIX <= k || store[k].localPath !in gone
    {
      assert EntryInv(store, k);
      ForwardDroppedIff(store, gone, both, store[k].localPath);
    }
  }

  lemma ForwardDroppedIff(store: Store, gone: set<string>, both: set<string>, localPath: string)
    requires Inv(store)
    ensures Dropped(store, ForwardKeys(store), gone, both, ForwardKey(localPath)) <==>
      ForwardKey(localPath) in store && localPath in gone
  {
    var fk := ForwardKey(localPath);
    PrefixesApart(localPath, Place("", "", "", ""));
    forall g | g in ForwardKeys(store) && g in store ensures fk != ReverseKey(PlaceOf(store[g])) {
      PrefixesApart(localPath, PlaceOf(store[g]));
    }
    if fk in store {
      assert EntryInv(store, fk);
      ForwardKeyInjective(store[fk].localPath, localPath);
    }
  }

  /** A restart whose removals complete keeps the invariant. */
  lemma ReloadKeeps(store: Store, gone: set<string>, both: set<string>)
    requires Inv(store) && gone <= both
    ensures Inv(Reloaded(store, ForwardKeys(store), gone, both))
  {
    forall k | k in store && !(FORWARD_PREFIX <= k) && store[k].localPath in gone
      ensures Dropped(store, ForwardKeys(store), gone, both, k)
    {
      assert EntryInv(store, k);
      var f := ForwardKey(store[k].localPath);
      assert f in ForwardKeys(store) && k == ReverseKey(PlaceOf(store[f]));
    }
    ReloadKeepsIff(store, gone, both);
  }

  /**
   * A removal that stops after its first step keeps the invariant exactly when no
   * reverse entry uses the local path.
   */
  lemma HalfRemovalKeepsIff(store: Store, localPath: string)
    requires Inv(store)
    ensures Inv(store - {ForwardKey(localPath)}) <==>
      forall k :: k in store && !(FORWARD_PREFIX <= k) ==> store[k].localPath != localPath
  {
    var after := store - {ForwardKey(localPath)};
    forall k | k in store && !(FORWARD_PREFIX <= k)
      ensures k in after && (EntryInv(after, k) <==> store[k].localPath != localPath)
    {
      assert EntryInv(store, k);
      if ForwardKey(store[k].localPath) == ForwardKey(localPath) {
        ForwardKeyInjective(store[k].localPath, localPath);
      }
    }
    forall k | k in after && FORWARD_PREFIX <= k ensures EntryInv(after, k) {
      assert EntryInv(store, k);
    }
  }

  /** A removal makes the local path unknown first and the place second. */
  lemma RemovalTells(store: Store, f: WatchFile, removals: nat)
    ensures var after := Without(store, f, removals);
      && (removals >= 1 ==> Resolve(after, f.localPath).None?)
      && (removals <= 1 ==> Lookup(after, PlaceOf(f)) == Lookup(store, PlaceOf(f)))
      && (removals >= 2 ==> Lookup(after, PlaceOf(f)).None?)
      && (removals == 0 ==> after == store)
  {
    PrefixesApart(f.localPath, PlaceOf(f));
  }

  datatype Op = Add(file: WatchFile, writes: nat) | Restart(gone: set<string>, both: set<string>)

  function After(store: Store, op: Op): Store {
    match op
    case Add(f, writes) => Put(store, f, writes)
    case Restart(gone, both) => Reloaded(store, ForwardKeys(store), gone, both)
  }

  function AfterAll(ops: seq<Op>): Store {
    if ops == [] then map[] else After(AfterAll(ops[..|ops| - 1]), ops[|ops| - 1])
  }

  /** Every record is added under a local path that no reverse entry uses yet, and removals complete. */
  predicate FreshNames(ops: seq<Op>) {
    ops == [] || (FreshNames(ops[..|ops| - 1]) && FreshOp(AfterAll(ops[..|ops| - 1]), ops[|ops| - 1]))
  }

  predicate FreshOp(store: Store, op: Op) {
    match op
    case Add(f, writes) => FreshFor(store, f, writes)
    case Restart(gone, both) => gone <= both
  }

  /** Adds that may stop half-way and restarts, in any order, keep both kinds of entries in step. */
  lemma {:induction false} IndexStaysInStep(ops: seq<Op>)
    requires FreshNames(ops)
    ensures Inv(AfterAll(ops))
  {
    if ops != [] {
      var before, op := AfterAll(ops[..|ops| - 1]), ops[|ops| - 1];
      IndexStaysInStep(ops[..|ops| - 1]);
      match op
      case Add(f, writes) => if writes > 0 { AddKeepsIff(before, f, writes); }
      case Restart(gone, both) => ReloadKeeps(before, gone, both);
    }
  }

  predicate AllClean(store: Store) {
    forall k :: k in store ==> Clean(PlaceOf(store[k]))
  }

  /** A local path found for a place resolves back to a record of exactly that place. */
  lemma FoundResolvesBack(store: Store, p: Place)
    requires Inv(store) && AllClean(store) && Clean(p) && Lookup(store, p).Some? && p.slug != ""
    ensures var r := Resolve(store, Lookup(store, p).value);
      r.Some? && PlaceOf(r.value) == p && r.value.localPath == Lookup(store, p).value
  {
    var k := ReverseKey(p);
    assert EntryInv(store, k);
    PrefixesApart("", p);
    ReverseKeyInjective(p, PlaceOf(store[k]));
  }

  predicate CleanOps(ops: seq<Op>) {
    forall i :: 0 <= i < |ops| && ops[i].Add? ==> Clean(PlaceOf(ops[i].file))
  }

  lemma {:induction false} RecordsStayClean(ops: seq<Op>)
    requires CleanOps(ops)
    ensures AllClean(AfterAll(ops))
  {
    if ops != [] {
      RecordsStayClean(ops[..|ops| - 1]);
    }
  }

  /**
   * In every reachable state, when records are added under fresh local paths
   * and hold no colons where they must not, a local path found for a place
   * resolves back to a record of exactly that place and local path.
   */
  lemma EveryFoundPathResolvesBack(ops: seq<Op>, p: Place)
    requires FreshNames(ops) && CleanOps(ops) && Clean(p) && p.slug != ""
    requires Lookup(AfterAll(ops), p).Some?
    ensures var store := AfterAll(ops);
      var r := Resolve(store, Lookup(store, p).value);
      r.Some? && PlaceOf(r.value) == p && r.value.localPath == Lookup(store, p).value
  {
    IndexStaysInStep(ops);
    RecordsStayClean(ops);
    FoundResolvesBack(AfterAll(ops), p);
  }

  // ---------------------------------------------------------------------
  // Refinement: the store behaves like a map from places and a map from local paths
  // ---------------------------------------------------------------------

  ghost function Places(store: Store): imap<Place, WatchFile> {
    imap p: Place | Clean(p) && ReverseKey(p) in store :: store[ReverseKey(p)]
  }

  ghost function Locals(store: Store): imap<string, WatchFile> {
    imap l: string | ForwardKey(l) in store :: store[ForwardKey(l)]
  }

  /** An add updates the two maps at the place and at the local path of its record and nowhere else. */
  lemma AddRefines(store: Store, f: WatchFile, writes: nat)
    requires Clean(PlaceOf(f))
    ensures Places(Put(store, f, writes)) == if writes >= 2 then Places(store)[PlaceOf(f) := f] else Places(store)
    ensures Locals(Put(store, f, writes)) == if writes >= 1 then Locals(store)[f.localPath := f] else Locals(store)
  {
    AddToPlaces(store, f, writes);
    AddToLocals(store, f, writes);
  }

  lemma AddToPlaces(store: Store, f: WatchFile, writes: nat)
    requires Clean(PlaceOf(f))
    ensures Places(Put(store, f, writes)) == if writes >= 2 then Places(store)[PlaceOf(f) := f] else Places(store)
  {
    var after := Put(store, f, writes);
    var places := if writes >= 2 then Places(store)[PlaceOf(f) := f] else Places(store);
    forall p: Place
      ensures p in Places(after) <==> p in places
      ensures p in places ==> Places(after)[p] == places[p]
    {
      PrefixesApart(f.localPath, p);
      if Clean(p) && p != PlaceOf(f) && ReverseKey(p) == ReverseKey(PlaceOf(f)) {
        ReverseKeyInjective(p, PlaceOf(f));
      }
    }
    assert Places(after) == places;
  }

  lemma AddToLocals(store: Store, f: WatchFile, writes: nat)
    ensures Locals(Put(store, f, writes)) == if writes >= 1 then Locals(store)[f.localPath := f] else Locals(store)
  {
    var after := Put(store, f, writes);
    var locals := if writes >= 1 then Locals(store)[f.localPath := f] else Locals(store);
    forall l: string
      ensures l in Locals(after) <==> l in locals
      ensures l in locals ==> Locals(after)[l] == locals[l]
    {
      PrefixesApart(l, PlaceOf(f));
      if l != f.localPath && ForwardKey(l) == ForwardKey(f.localPath) {
        ForwardKeyInjective(l, f.localPath);
      }
    }
    assert Locals(after) == locals;
  }

  /** A removal takes one place and one local path out of the maps. */
  lemma RemoveRefines(store: Store, f: WatchFile)
    requires Clean(PlaceOf(f))
    ensures var after := store - {ForwardKey(f.localPath), ReverseKey(PlaceOf(f))};
      && (forall p :: p in Places(after) <==> p in Places(store) && p != PlaceOf(f))
      && (forall p :: p in Places(after) ==> Places(after)[p] == Places(store)[p])
      && (forall l :: l in Locals(after) <==> l in Locals(store) && l != f.localPath)
      && (forall l :: l in Locals(after) ==> Locals(after)[l] == Locals(store)[l])
  {
    var after := store - {ForwardKey(f.localPath), ReverseKey(PlaceOf(f))};
    forall p: Place ensures p in Places(after) <==> p in Places(store) && p != PlaceOf(f) {
      PrefixesApart(f.localPath, p);
      if Clean(p) && p != PlaceOf(f) && ReverseKey(p) == ReverseKey(PlaceOf(f)) {
        ReverseKeyInjective(p, PlaceOf(f));
      }
    }
    forall l: string ensures l in Locals(after) <==> l in Locals(store) && l != f.localPath {
      PrefixesApart(l, PlaceOf(f));
      if l != f.localPath && ForwardKey(l) == ForwardKey(f.localPath) {
        ForwardKeyInjective(l, f.localPath);
      }
    }
  }

  // ---------------------------------------------------------------------
  // Opening files
  // ---------------------------------------------------------------------

  datatype Bucket = Bucket(slug: string, key: string)

  /**
   * What may go wrong while a file is opened: finding the bucket and its item,
   * making a local path tmp, fetching the content, the two writes, the watch.
   */
  datatype Luck = Luck(listed: bool, tmp: Option<string>, fetched: bool, writes: nat, watched: bool)

  datatype Opened = Opened(store: Store, files: set<string>, location: Option<string>)

  function Record(b: Bucket, p: Place, tmp: string): WatchFile {
    WatchFile(p.dbId, tmp, p.path, b.key, b.slug, p.dbId != "", p.cid)
  }

  predicate Refused(f: WatchFile) {
    f.localPath == "" || f.bucketKey == "" || f.bucketPath == ""
  }

  /** Opening the item at a place of a bucket, whose current version is the place's cid; files are the local files. */
  function Open(store: Store, files: set<string>, b: Bucket, path: string, dbId: string, cid: string,
                luck: Luck): Opened
  {
    var p := Place(b.slug, path, dbId, cid);
    var known := Lookup(store, p);
    if !luck.listed then Opened(store, files, None)
    else if known.Some? && known.value in files then Opened(store, files, known)
    else if luck.tmp.None? then Opened(store, files, None)
    else
      var tmp := luck.tmp.value;
      var f := Record(b, p, tmp);
      if !luck.fetched || Refused(f) then Opened(store, files + {tmp}, None)
      else
        Opened(Put(store, f, luck.writes), files + {tmp}, if luck.writes >= 2 && luck.watched then Some(tmp) else None)
  }

  /** A location that is returned is registered for the current version and is there. */
  lemma OpenedIsRegistered(store: Store, files: set<string>, b: Bucket, path: string, dbId: string, cid: string,
                           luck: Luck)
    ensures var r := Open(store, files, b, path, dbId, cid, luck);
      r.location.Some? ==>
        r.location.value in r.files && Lookup(r.store, Place(b.slug, path, dbId, cid)) == r.location
  {
  }

  /** Opening again while the file is still there returns the same location and adds no record. */
  lemma OpenAgain(store: Store, files: set<string>, b: Bucket, path: string, dbId: string, cid: string,
                  luck: Luck, files': set<string>, luck': Luck)
    ensures var r := Open(store, files, b, path, dbId, cid, luck);
      r.location.Some? && r.location.value in files' ==>
        Open(r.store, files', b, path, dbId, cid, luck') ==
          Opened(r.store, files', if luck'.listed then r.location else None)
  {
    OpenedIsRegistered(store, files, b, path, dbId, cid, luck);
  }

  /** The index that the store refines: one map by place and one by local path. */
  ghost function IndexOpen(places: imap<Place, WatchFile>, locals: imap<string, WatchFile>, files: set<string>,
                           b: Bucket, p: Place, luck: Luck)
    : (r: (imap<Place, WatchFile>, imap<string, WatchFile>, set<string>, Option<string>))
  {
    if !luck.listed then (places, locals, files, None)
    else if p in places && places[p].localPath != "" && places[p].localPath in files then
      (places, locals, files, Some(places[p].localPath))
    else if luck.tmp.None? then (places, locals, files, None)
    else
      var tmp := luck.tmp.value;
      var f := Record(b, p, tmp);
      if !luck.fetched || Refused(f) || luck.writes == 0 then (places, locals, files + {tmp}, None)
      else if luck.writes == 1 then (places, locals[tmp := f], files + {tmp}, None)
      else (places[p := f], locals[tmp := f], files + {tmp}, if luck.watched then Some(tmp) else None)
  }

  /** Opening a file on the string-keyed store is opening it on the two maps, in every branch. */
  lemma OpenRefines(store: Store, files: set<string>, b: Bucket, path: string, dbId: string, cid: string, luck: Luck)
    requires Clean(Place(b.slug, path, dbId, cid))
    ensures var r := Open(store, files, b, path, dbId, cid, luck);
      (Places(r.store), Locals(r.store), r.files, r.location) ==
        IndexOpen(Places(store), Locals(store), files, b, Place(b.slug, path, dbId, cid), luck)
  {
    var p := Place(b.slug, path, dbId, cid);
    assert p in Places(store) <==> ReverseKey(p) in store;
    if luck.tmp.Some? {
      AddRefines(store, Record(b, p, luck.tmp.value), luck.writes);
    }
  }

  datatype Access = Access(b: Bucket, path: string, dbId: string, cid: string, luck: Luck)

  function PlaceIn(a: Access): Place {
    Place(a.b.slug, a.path, a.dbId, a.cid)
  }

  /** Files are opened, records are added and restarts happen, and local files disappear. */
  datatype Event = Opening(a: Access) | Indexing(op: Op) | Vanishing(removed: set<string>)

  function Next(r: Opened, e: Event): Opened {
    match e
    case Opening(a) => Open(r.store, r.files, a.b, a.path, a.dbId, a.cid, a.luck)
    case Indexing(op) => Opened(After(r.store, op), r.files, None)
    case Vanishing(removed) => Opened(r.store, r.files - removed, None)
  }

  function NextAll(r: Opened, events: seq<Event>): Opened {
    if events == [] then r else Next(NextAll(r, events[..|events| - 1]), events[|events| - 1])
  }

  /** The record is filed under the key of the place; for places without colons, it is a record of that place. */
  predicate IsAt(f: WatchFile, p: Place) {
    ReverseKey(PlaceOf(f)) == ReverseKey(p)
  }

  /**
   * The event leaves a place its location: an add that is complete and is for
   * the place keeps the location, a restart takes out no record of the place
   * completely, also none of an older location, and the file does not disappear.
   */
  predicate Spares(store: Store, e: Event, p: Place, location: string) {
    match e
    case Opening(_) => true
    case Indexing(Add(f, writes)) => writes < 2 || f.localPath == location || !IsAt(f, p)
    case Indexing(Restart(gone, both)) =>
      forall k :: k in ForwardKeys(store) && store[k].localPath in gone * both ==> !IsAt(store[k], p)
    case Vanishing(removed) => location !in removed
  }

  /** The local file registered for the place is there. */
  predicate IsOpen(r: Opened, p: Place, location: string) {
    Lookup(r.store, p) == Some(location) && location in r.files
  }

  lemma OpenKeepsLookup(store: Store, files: set<string>, a: Access, p: Place, location: string)
    requires Clean(p) && Clean(PlaceIn(a)) && Lookup(store, p) == Some(location) && location in files
    ensures var r := Open(store, files, a.b, a.path, a.dbId, a.cid, a.luck);
      Lookup(r.store, p) == Some(location) && location in r.files
  {
    var r := Open(store, files, a.b, a.path, a.dbId, a.cid, a.luck);
    if r.store != store && a.luck.tmp.Some? {
      PrefixesApart(a.luck.tmp.value, p);
      if ReverseKey(p) == ReverseKey(PlaceIn(a)) {
        ReverseKeyInjective(p, PlaceIn(a));
      }
    }
  }

  /** A file stays open under its location exactly when the event spares it. */
  lemma StaysOpenIff(r: Opened, e: Event, p: Place, location: string)
    requires Clean(p) && IsOpen(r, p, location) && (e.Opening? ==> Clean(PlaceIn(e.a)))
    ensures IsOpen(Next(r, e), p, location) <==> Spares(r.store, e, p, location)
  {
    match e
    case Opening(a) => OpenKeepsLookup(r.store, r.files, a, p, location);
    case Indexing(Add(f, _)) => PrefixesApart(f.localPath, p);
    case Indexing(Restart(gone, both)) =>
      PrefixesApart("", p);
      assert ReverseKey(p) in Reloaded(r.store, ForwardKeys(r.store), gone, both) <==>
        !Dropped(r.store, ForwardKeys(r.store), gone, both, ReverseKey(p));
    case _ =>
  }

  predicate SparesAll(r: Opened, events: seq<Event>, p: Place, location: string) {
    forall i :: 0 <= i < |events| ==>
      && (events[i].Opening? ==> Clean(PlaceIn(events[i].a)))
      && Spares(NextAll(r, events[..i]).store, events[i], p, location)
  }

  /**
   * A file that was opened stays open under its location over any opens, adds,
   * stopped adds, restarts and disappearing files that spare it: opening the
   * same version again returns the same location and adds no record.
   */
  lemma {:induction false} OpenAgainLater(r: Opened, p: Place, location: string, events: seq<Event>)
    requires Clean(p) && IsOpen(r, p, location) && SparesAll(r, events, p, location)
    ensures var t := NextAll(r, events);
      && IsOpen(t, p, location)
      && forall a: Access :: PlaceIn(a) == p && a.luck.listed ==>
           Open(t.store, t.files, a.b, a.path, a.dbId, a.cid, a.luck) == Opened(t.store, t.files, Some(location))
  {
    if events != [] {
      var n := |events| - 1;
      forall i | 0 <= i < n ensures events[..n][..i] == events[..i] {
      }
      OpenAgainLater(r, p, location, events[..n]);
      StaysOpenIff(NextAll(r, events[..n]), events[n], p, location);
    }
  }

  /**
   * With a fresh local path an open keeps the invariant, and what it returns
   * resolves to the opened version; a file that it registers is remote exactly
   * when a database is named, and is registered with its bucket's key.
   */
  lemma OpenKeeps(store: Store, files: set<string>, b: Bucket, path: string, dbId: string, cid: string, luck: Luck)
    requires Inv(store) && AllClean(store)
    requires var p := Place(b.slug, path, dbId, cid);
      Clean(p) && p.slug != "" && (luck.tmp.Some? ==> FreshFor(store, Record(b, p, luck.tmp.value), luck.writes))
    ensures var r := Open(store, files, b, path, dbId, cid, luck);
      && Inv(r.store) && AllClean(r.store)
      && (r.location.Some? ==>
           && Resolve(r.store, r.location.value).Some?
           && PlaceOf(Resolve(r.store, r.location.value).value) == Place(b.slug, path, dbId, cid))
    ensures var r := Open(store, files, b, path, dbId, cid, luck);
      r.location.Some? && r.location != Lookup(store, Place(b.slug, path, dbId, cid)) ==>
        && Resolve(r.store, r.location.value).Some?
        && var f := Resolve(r.store, r.location.value).value;
           (f.isRemote <==> dbId != "") && f.bucketKey == b.key && f.localPath == r.location.value
  {
    var p := Place(b.slug, path, dbId, cid);
    var r := Open(store, files, b, path, dbId, cid, luck);
    if r.store != store {
      AddKeepsIff(store, Record(b, p, luck.tmp.value), luck.writes);
    }
    if r.location.Some? {
      OpenedIsRegistered(store, files, b, path, dbId, cid, luck);
      FoundResolvesBack(r.store, p);
    }
  }

  // ---------------------------------------------------------------------
  // The synchronizer and the service that opens files
  // ---------------------------------------------------------------------

  class BucketSynchronizer {
    var store: Store

    constructor ()
      ensures store == map[]
    {
      store := map[];
    }

    method AddFileInfoToStore(f: WatchFile, writes: nat) returns (ok: bool)
      modifies this
      ensures ok <==> writes >= 2
      ensures store == Put(old(store), f, writes)
    {
      if writes == 0 { return false; }
      store := store[ForwardKey(f.localPath) := f];
      if writes == 1 { return false; }
      store := store[ReverseKey(PlaceOf(f)) := f];
      ok := true;
    }

    /** Registers a file; the watcher comes last, so a file it refuses stays in the index. */
    method AddFileWatch(f: WatchFile, writes: nat, watched: bool) returns (ok: bool)
      modifies this
      ensures ok <==> !Refused(f) && writes >= 2 && watched
      ensures store == if Refused(f) then old(store) else Put(old(store), f, writes)
    {
      if f.localPath == "" { return false; }
      if f.bucketKey == "" { return false; }
      if f.bucketPath == "" { return false; }
      ok := AddFileInfoToStore(f, writes);
      if !ok { return; }
      ok := watched;
    }

    method GetOpenFilePath(p: Place) returns (localPath: Option<string>)
      ensures localPath == Lookup(store, p)
    {
      var key := ReverseKey(p);
      if key !in store { return None; }
      if store[key].localPath == "" { return None; }
      localPath := Some(store[key].localPath);
    }

    method GetOpenFileBucketSlugAndPath(localPath: string) returns (f: Option<WatchFile>)
      ensures f == Resolve(store, localPath)
    {
      var key := ForwardKey(localPath);
      if key !in store { return None; }
      if store[key].bucketSlug == "" { return None; }
      f := Some(store[key]);
    }

    method RemoveFileInfo(f: WatchFile, removals: nat) returns (ok: bool)
      modifies this
      ensures ok <==> removals >= 2
      ensures store == Without(old(store), f, removals)
    {
      if removals == 0 { return false; }
      store := store - {ForwardKey(f.localPath)};
      if removals == 1 { return false; }
      store := store - {ReverseKey(PlaceOf(f))};
      ok := true;
    }

    /** What a restart does for one key; an error of the removal is not looked at. */
    method ReloadOne(k: string, existing: set<string>, unwatchable: set<string>, removals: map<string, nat>)
      requires k in store && k == ForwardKey(store[k].localPath)
      modifies this
      ensures var f := old(store[k]);
        store == if f.localPath in existing * unwatchable then Without(old(store), f, Removals(removals, f.localPath))
                 else old(store)
    {
      var f := store[k];
      if f.localPath in existing {
        if f.localPath in unwatchable {
          var _ := RemoveFileInfo(f, Removals(removals, f.localPath));
        }
      }
    }

    /**
     * The loop of Start: files that exist and cannot be watched are taken out
     * of the index.  For each local path removals says how many of the two
     * removals succeed.
     */
    method Reload(existing: set<string>, unwatchable: set<string>, removals: map<string, nat>)
      requires ForwardInv(store)
      modifies this
      ensures store == Reloaded(old(store), ForwardKeys(old(store)),
                                Gone(existing * unwatchable, removals, 1), Gone(existing * unwatchable, removals, 2))
      ensures ForwardInv(store)
    {
      ghost var before, bad := store, existing * unwatchable;
      ghost var gone, both := Gone(bad, removals, 1), Gone(bad, removals, 2);
      var keys := ForwardKeys(store);
      ReloadDone(before, gone, both);
      while keys != {}
        invariant keys <= ForwardKeys(before)
        invariant store == StillToDo(before, keys, gone, both)
        decreases |keys|
      {
        var k :| k in keys;
        ReloadStep(before, keys, bad, removals, k);
        ReloadOne(k, existing, unwatchable, removals);
        keys := keys - {k};
      }
    }
  }

  function Removals(removals: map<string, nat>, localPath: string): nat {
    if localPath in removals then removals[localPath] else 2
  }

  /** The local paths of which at least n removals succeed. */
  function Gone(bad: set<string>, removals: map<string, nat>, n: nat): set<string> {
    set l | l in bad && Removals(removals, l) >= n
  }

  /** The store of a restart that has yet to look at the given keys. */
  ghost function StillToDo(store: Store, keys: set<string>, gone: set<string>, both: set<string>): Store {
    Reloaded(store, ForwardKeys(store) - keys, gone, both)
  }

  lemma ReloadDone(store: Store, gone: set<string>, both: set<string>)
    ensures StillToDo(store, ForwardKeys(store), gone, both) == store
    ensures StillToDo(store, {}, gone, both) == Reloaded(store, ForwardKeys(store), gone, both)
  {
    assert ForwardKeys(store) - {} == ForwardKeys(store);
    assert ForwardKeys(store) - ForwardKeys(store) == {};
  }

  lemma ReloadStep(store: Store, keys: set<string>, bad: set<string>, removals: map<string, nat>, k: string)
    requires ForwardInv(store) && keys <= ForwardKeys(store) && k in keys
    ensures var gone, both, f := Gone(bad, removals, 1), Gone(bad, removals, 2), store[k];
      var now := StillToDo(store, keys, gone, both);
      && k in now && now[k] == f && k == ForwardKey(f.localPath)
      && StillToDo(store, keys - {k}, gone, both) ==
           if f.localPath in bad then Without(now, f, Removals(removals, f.localPath)) else now
  {
    var gone, both := Gone(bad, removals, 1), Gone(bad, removals, 2);
    var done := ForwardKeys(store) - keys;
    StillThere(store, done, gone, both, k);
    DroppedMore(store, done, gone, both, k);
    assert ForwardKeys(store) - (keys - {k}) == done + {k};
  }

  lemma StillThere(store: Store, done: set<string>, gone: set<string>, both: set<string>, k: string)
    requires ForwardInv(store) && done <= ForwardKeys(store) && k in ForwardKeys(store) && k !in done
    ensures k in Reloaded(store, done, gone, both) && k == ForwardKey(store[k].localPath)
  {
    forall f | f in done && f in store ensures k != ReverseKey(PlaceOf(store[f])) {
      PrefixesApart("", PlaceOf(store[f]));
    }
  }

  lemma DroppedMore(store: Store, done: set<string>, gone: set<string>, both: set<string>, k: string)
    requires k in store && k == ForwardKey(store[k].localPath)
    ensures var now, l := Reloaded(store, done, gone, both), store[k].localPath;
      Reloaded(store, done + {k}, gone, both) ==
        if l !in gone then now else if l in both then now - {k, ReverseKey(PlaceOf(store[k]))} else now - {k}
  {
    var l := store[k].localPath;
    forall x | x in store
      ensures Dropped(store, done + {k}, gone, both, x) <==>
        Dropped(store, done, gone, both, x) ||
        (l in gone && (x == k || (l in both && x == ReverseKey(PlaceOf(store[k])))))
    {
    }
  }

  class Space {
    const sync: BucketSynchronizer
    var files: set<string>

    constructor (sync: BucketSynchronizer, files: set<string>)
      ensures this.sync == sync && this.files == files
    {
      this.sync := sync;
      this.files := files;
    }

    method OpenFile(b: Bucket, path: string, dbId: string, cid: string, luck: Luck) returns (location: Option<string>)
      modifies this, sync
      ensures Opened(sync.store, files, location) == Open(old(sync.store), old(files), b, path, dbId, cid, luck)
    {
      if !luck.listed { return None; }
      var filePath := sync.GetOpenFilePath(Place(b.slug, path, dbId, cid));
      if filePath.Some? && filePath.value in files {
        return filePath;
      }
      location := OpenFileOnFs(b, path, dbId, cid, luck);
    }

    method OpenFileOnFs(b: Bucket, path: string, dbId: string, cid: string, luck: Luck)
      returns (location: Option<string>)
      requires luck.listed
      requires var known := Lookup(sync.store, Place(b.slug, path, dbId, cid)); known.Some? ==> known.value !in files
      modifies this, sync
      ensures Opened(sync.store, files, location) == Open(old(sync.store), old(files), b, path, dbId, cid, luck)
    {
      if luck.tmp.None? { return None; }
      var tmp := luck.tmp.value;
      files := files + {tmp};
      if !luck.fetched { return None; }
      var f := WatchFile(dbId, tmp, path, b.key, b.slug, dbId != "", cid);
      var ok := sync.AddFileWatch(f, luck.writes, luck.watched);
      location := if ok then Some(tmp) else None;
    }
  }
}
