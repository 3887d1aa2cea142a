/**
 * Where an upload puts the nodes of the source trees, whatever fails on the
 * way: at their paths below the parent directory of their source, below the
 * target.
 */
module UploadPlaces {
  import opened SourceTree
  import opened Paths
  import opened Buckets
  import opened AddItems
  import opened UploadReports

  /** File names are nonempty and hold no slash. */
  predicate Named(node: Node) {
    node.Dir? ==>
      forall i :: 0 <= i < |node.entries| ==>
        node.entries[i].name != "" && '/' !in node.entries[i].name && Named(node.entries[i])
  }

  predicate AllNamed(entries: seq<Node>) {
    forall i :: 0 <= i < |entries| ==> entries[i].name != "" && '/' !in entries[i].name && Named(entries[i])
  }

  /** A file whose upload was not refused, or a folder that was created. */
  predicate IsStored(n: Node) {
    match n
    case File(_, _, upload) => upload != Refused
    case Dir(_, _, creates) => creates
    case UnreadableDir(_, creates) => creates
    case Missing(_) => false
  }

  /** What is pushed for a stored node at a place: the file, or the keep file of the folder. */
  function PushAt(at: seq<string>, n: Node): (seq<string>, nat) {
    if n.File? then (at, n.size) else (at + [KEEP_NAME], 0)
  }

  /** The place for a path below the target, without the first names of the path. */
  function PlaceOf(path: string, drop: nat, target: seq<string>): seq<string> {
    target + if drop <= |Components(path)| then Components(path)[drop..] else []
  }

  /** The pushes for the stored ones among the nodes, in order. */
  function Stored(ys: seq<Item>, drop: nat, target: seq<string>): seq<(seq<string>, nat)> {
    if ys == [] then []
    else
      var last := ys[|ys| - 1];
      Stored(ys[..|ys| - 1], drop, target)
      + if IsStored(last.node) then [PushAt(PlaceOf(last.path, drop, target), last.node)] else []
  }

  /** Where the pushes lead, and their sizes. */
  function Places(ps: seq<Push>): seq<(seq<string>, nat)> {
    if ps == [] then []
    else Places(ps[..|ps| - 1]) + [(Components(ps[|ps| - 1].path), ps[|ps| - 1].size)]
  }

  lemma {:induction false} PlacesConcat(a: seq<Push>, b: seq<Push>)
    ensures Places(a + b) == Places(a) + Places(b)
    decreases |b|
  {
    if b == [] {
      assert a + b == a;
    } else {
      var n := |b| - 1;
      assert (a + b)[..|a + b| - 1] == a + b[..n];
      PlacesConcat(a, b[..n]);
    }
  }

  lemma {:induction false} StoredConcat(a: seq<Item>, b: seq<Item>, drop: nat, target: seq<string>)
    ensures Stored(a + b, drop, target) == Stored(a, drop, target) + Stored(b, drop, target)
    decreases |b|
  {
    if b == [] {
      assert a + b == a;
    } else {
      var n := |b| - 1;
      assert (a + b)[..|a + b| - 1] == a + b[..n];
      StoredConcat(a, b[..n], drop, target);
    }
  }

  lemma OnePlace(p: Push)
    ensures Places([p]) == [(Components(p.path), p.size)]
  {
    assert [p][..0] == [];
  }

  lemma OneStored(x: Item, drop: nat, target: seq<string>)
    ensures Stored([x], drop, target) ==
      if IsStored(x.node) then [PushAt(PlaceOf(x.path, drop, target), x.node)] else []
  {
    assert [x][..0] == [];
  }

  /** A path ends with its last name. */
  lemma EndsWithBase(path: string)
    requires Base(path) != ""
    ensures Components(path) != [] && Components(path)[|Components(path)| - 1] == Base(path)
  {
  }

  // ---------------------------------------------------------------------
  // Below a source
  // ---------------------------------------------------------------------

  /** All nodes lie below the path. */
  predicate AllBelow(ys: seq<Item>, prefix: seq<string>) {
    forall i :: 0 <= i < |ys| ==> prefix <= Components(ys[i].path)
  }

  lemma {:induction false} TriedBelow(x: Item)
    requires Named(x.node)
    ensures AllBelow(Tried(x), Components(x.path))
    decreases x.node, 1
  {
    if x.node.Dir? && x.node.creates {
      TriedEntriesBelow(x.path, x.node.entries);
    }
  }

  lemma {:induction false} TriedEntriesBelow(dir: string, entries: seq<Node>)
    requires AllNamed(entries)
    ensures AllBelow(TriedEntries(dir, entries), Components(dir))
    decreases entries, 0
  {
    if entries != [] {
      TriedEntriesBelow(dir, entries[1..]);
      if entries[0].name != dir {
        var path := dir + "/" + entries[0].name;
        ComponentsOfChild(dir, entries[0].name);
        TriedBelow(Item(path, entries[0]));
        assert Components(dir) <= Components(path);
      }
    }
  }

  /** Going one folder deeper in the path is going one folder deeper in the target. */
  lemma {:induction false} Deeper(ys: seq<Item>, prefix: seq<string>, target: seq<string>)
    requires prefix != [] && AllBelow(ys, prefix)
    ensures var n := |prefix| - 1;
      Stored(ys, n + 1, target + [prefix[n]]) == Stored(ys, n, target)
  {
    if ys != [] {
      var last, n := ys[|ys| - 1], |prefix| - 1;
      Deeper(ys[..|ys| - 1], prefix, target);
      PlaceDeeper(last.path, prefix, target);
    }
  }

  lemma PlaceDeeper(path: string, prefix: seq<string>, target: seq<string>)
    requires prefix != [] && prefix <= Components(path)
    ensures var n := |prefix| - 1;
      PlaceOf(path, n + 1, target + [prefix[n]]) == PlaceOf(path, n, target)
  {
    var n := |prefix| - 1;
    assert Components(path)[n..] == [prefix[n]] + Components(path)[n + 1..];
  }

  // ---------------------------------------------------------------------
  // The pushes
  // ---------------------------------------------------------------------

  lemma KeepPlace(folder: string)
    ensures Components(KeepPush(folder).path) == Components(folder) + [KEEP_NAME]
  {
    TrimmedComponents(folder);
    ComponentsOfChild(TrimRightSlashes(folder), KEEP_NAME);
  }

  lemma {:induction false} TrimmedComponents(path: string)
    ensures Components(TrimRightSlashes(path)) == Components(path)
  {
    if path != [] && path[|path| - 1] == '/' {
      TrimmedComponents(path[..|path| - 1]);
      LastSlash(path);
    }
  }

  lemma LastSlash(path: string)
    requires path != [] && path[|path| - 1] == '/'
    ensures Components(path) == Components(path[..|path| - 1])
  {
    var init := path[..|path| - 1];
    TrailingSlash(init);
    assert init + ['/'] == path;
  }

  lemma TrailingSlash(path: string)
    ensures Components(path + ['/']) == Components(path)
  {
    SplitSnoc(path, '/', "");
    assert path + ['/'] + "" == path + ['/'];
    var parts := Split(path, '/');
    assert (parts + [""])[..|parts|] == parts;
  }

  lemma FilePlace(target: string, name: string)
    requires name != "" && '/' !in name
    ensures Components(FileTarget(target, name)) == Components(target) + [name]
  {
    if target == "" || target == "/" {
      RootPaths();
      ComponentsOfName(name);
    } else {
      ComponentsOfChild(target, name);
    }
  }

  lemma {:induction false} NodePlaces(x: Item, target: string)
    requires Named(x.node) && Base(x.path) != ""
    ensures Places(PushesNode(x.path, x.node, target)) ==
      Stored(Tried(x), |Components(x.path)| - 1, Components(target))
    decreases x.node, 1
  {
    var n, at := |Components(x.path)| - 1, Components(target);
    EndsWithBase(x.path);
    OneStored(x, n, at);
    assert PlaceOf(x.path, n, at) == at + [Base(x.path)];
    var folder := target + "/" + Base(x.path);
    ComponentsOfChild(target, Base(x.path));
    KeepPlace(folder);
    OnePlace(KeepPush(folder));
    match x.node
    case File(_, size, _) =>
      FilePlace(target, Base(x.path));
      OnePlace(Push(FileTarget(target, Base(x.path)), size));
    case Dir(_, entries, creates) =>
      if creates {
        EntriesPlaces(x.path, entries, folder);
        PlacesConcat([KeepPush(folder)], PushesEntries(x.path, entries, folder));
        TriedEntriesBelow(x.path, entries);
        Deeper(TriedEntries(x.path, entries), Components(x.path), at);
        StoredConcat([x], TriedEntries(x.path, entries), n, at);
      }
    case _ =>
  }

  lemma {:induction false} EntriesPlaces(dir: string, entries: seq<Node>, target: string)
    requires AllNamed(entries)
    ensures Places(PushesEntries(dir, entries, target)) ==
      Stored(TriedEntries(dir, entries), |Components(dir)|, Components(target))
    decreases entries, 0
  {
    if entries != [] {
      EntriesPlaces(dir, entries[1..], target);
      if entries[0].name != dir {
        var x := Item(dir + "/" + entries[0].name, entries[0]);
        ComponentsOfChild(dir, entries[0].name);
        BaseOfChild(dir, entries[0].name);
        NodePlaces(x, target);
        PlacesConcat(PushesNode(x.path, x.node, target), PushesEntries(dir, entries[1..], target));
        StoredConcat(Tried(x), TriedEntries(dir, entries[1..]), |Components(dir)|, Components(target));
      } else {
        assert PushesEntries(dir, entries, target) == PushesEntries(dir, entries[1..], target);
        assert TriedEntries(dir, entries) == TriedEntries(dir, entries[1..]);
      }
    }
  }

  /**
   * Whatever fails, the upload of a source pushes exactly the files that were
   * not refused, with their sizes, and a keep file for each folder that was
   * created, in the order in which they are tried; each at its path below the
   * parent directory of the source, below the target.
   */
  lemma PushesAreThePlaces(x: Item, target: string)
    requires Named(x.node) && Base(x.path) != ""
    ensures Places(PushesNode(x.path, x.node, target)) ==
      Stored(Tried(x), |Components(x.path)| - 1, Components(target))
    ensures AllBelow(Tried(x), Components(x.path))
  {
    NodePlaces(x, target);
    TriedBelow(x);
  }

  /** The same for all sources, one after the other. */
  function StoredAll(items: seq<Item>, target: seq<string>): seq<(seq<string>, nat)> {
    if items == [] then []
    else
      var n := |Components(items[0].path)|;
      Stored(Tried(items[0]), if n > 0 then n - 1 else 0, target) + StoredAll(items[1..], target)
  }

  lemma {:induction false} AllPushesAreThePlaces(items: seq<Item>, target: string)
    requires forall i :: 0 <= i < |items| ==> Named(items[i].node) && Base(items[i].path) != ""
    ensures Places(PushesAll(items, target)) == StoredAll(items, Components(target))
  {
    if items != [] {
      EndsWithBase(items[0].path);
      NodePlaces(items[0], target);
      AllPushesAreThePlaces(items[1..], target);
      PlacesConcat(PushesNode(items[0].path, items[0].node, target), PushesAll(items[1..], target));
    }
  }
}
