/** Uploading source trees and listing what was uploaded gives the trees back. */
module RoundTrip {
  import opened Wrappers
  import opened SourceTree
  import opened Paths
  import opened Buckets
  import opened AddItems
  import opened Listing

  // ---------------------------------------------------------------------
  // The bucket image of a source tree
  // ---------------------------------------------------------------------

  const KEEP: map<string, Entry> := map[KEEP_NAME := Blob(0)]

  function Image(n: Node): Entry
    decreases n, 1
  {
    match n
    case File(_, size, _) => Blob(size)
    case Dir(_, entries, _) => Folder(KEEP + Images(entries))
    case _ => Blob(0)
  }

  function Images(ns: seq<Node>): map<string, Entry>
    decreases ns, 0
  {
    if ns == [] then map[] else map[ns[0].name := Image(ns[0])] + Images(ns[1..])
  }

  function ItemImages(items: seq<Item>): map<string, Entry> {
    if items == [] then map[] else map[Base(items[0].path) := Image(items[0].node)] + ItemImages(items[1..])
  }

  predicate PlainName(name: string) {
    name != [] && '/' !in name && !IsMetaFileName(name)
  }

  /** Readable, uploaded without a failure, with plain and distinct sibling names. */
  predicate Good(n: Node) {
    match n
    case File(_, _, upload) => upload == Uploads
    case Dir(_, entries, creates) => creates && GoodSiblings(entries)
    case _ => false
  }

  predicate GoodSiblings(ns: seq<Node>) {
    && (forall i :: 0 <= i < |ns| ==> PlainName(ns[i].name) && (ns[i].Dir? ==> ns[i].name != KEEP_NAME) && Good(ns[i]))
    && (forall i, j :: 0 <= i < j < |ns| ==> ns[i].name != ns[j].name)
  }

  // ---------------------------------------------------------------------
  // Uploading grafts the image into the target folder
  // ---------------------------------------------------------------------

  /** No folder among the siblings is already there. */
  predicate NoClash(ns: seq<Node>, kids: map<string, Entry>) {
    forall i :: 0 <= i < |ns| && ns[i].Dir? ==> ns[i].name !in kids
  }

  predicate NoItemClash(items: seq<Item>, kids: map<string, Entry>) {
    forall i :: 0 <= i < |items| && items[i].node.Dir? ==> Base(items[i].path) !in kids
  }

  /** Grafting one entry and then the rest, which may be nothing. */
  lemma GraftRest(b: Entry, names: seq<string>, one: map<string, Entry>, rest: map<string, Entry>)
    ensures one + map[] == one
    ensures Graft(Graft(b, names, one), names, rest) == Graft(b, names, one + rest)
  {
    GraftTwice(b, names, one, rest);
    assert one + map[] == one;
  }

  lemma KidsAtGraft(e: Entry, names: seq<string>, added: map<string, Entry>)
    ensures KidsAt(Graft(e, names, added), names) == KidsAt(e, names) + added
  {
    AtGraft(e, names, added);
    KidsAtAt(Graft(e, names, added), names);
  }

  lemma {:induction false} KidsAtMissing(e: Entry, names: seq<string>, name: string)
    requires name !in KidsAt(e, names)
    ensures KidsAt(e, names + [name]) == map[]
  {
    var path := names + [name];
    if names == [] {
      assert path[1..] == [];
    } else {
      assert path[0] == names[0] && path[1..] == names[1..] + [name];
      if names[0] in Kids(e) {
        KidsAtMissing(Kids(e)[names[0]], names[1..], name);
      }
    }
  }

  lemma KeepPushPath(folder: string)
    requires folder != [] && folder[|folder| - 1] != '/'
    ensures KeepPush(folder).path == folder + "/" + KEEP_NAME
    ensures Components(KeepPush(folder).path) == Components(folder) + [KEEP_NAME]
  {
    assert '/' !in KEEP_NAME;
    ComponentsOfChild(folder, KEEP_NAME);
  }

  lemma FolderPath(target: string, name: string)
    requires name != [] && '/' !in name
    ensures var folder := target + "/" + name;
      folder != [] && folder[|folder| - 1] != '/' && Components(folder) == Components(target) + [name]
  {
    var folder := target + "/" + name;
    assert folder[|folder| - 1] == name[|name| - 1];
    assert name[|name| - 1] in name;
    ComponentsOfChild(target, name);
  }

  lemma UploadFile(b: Entry, path: string, node: Node, target: string)
    requires Good(node) && node.File? && Base(path) != []
    ensures ApplyPushes(b, PushesNode(path, node, target)) ==
              Graft(b, Components(target), map[Base(path) := Image(node)])
  {
    var name := Base(path);
    var push := Push(FileTarget(target, name), node.size);
    assert PushesNode(path, node, target) == [push];
    assert [push][1..] == [];
    if target == "" || target == "/" {
      ComponentsOfName(name);
      RootPaths();
    } else {
      ComponentsOfChild(target, name);
    }
    assert ApplyPushes(b, [push]) == ApplyPush(b, push);
    InsertIsGraft(b, Components(target), name, node.size);
  }

  /** The empty keep file that creating a folder pushes is a graft below the target. */
  lemma UploadKeep(b: Entry, target: string, name: string)
    requires name != [] && '/' !in name && name !in KidsAt(b, Components(target))
    ensures var folder, below := target + "/" + name, Components(target) + [name];
      && Components(folder) == below
      && ApplyPush(b, KeepPush(folder)) == Graft(b, below, KEEP)
      && KidsAt(Graft(b, below, KEEP), below) == KEEP
  {
    var folder, below := target + "/" + name, Components(target) + [name];
    FolderPath(target, name);
    KeepPushPath(folder);
    InsertIsGraft(b, below, KEEP_NAME, 0);
    KidsAtMissing(b, Components(target), name);
    KidsAtGraft(b, below, KEEP);
  }

  /** The folder with its keep file and then the entries below it. */
  lemma GraftFolder(b: Entry, names: seq<string>, name: string, entries: seq<Node>)
    requires name !in KidsAt(b, names)
    ensures (if entries == [] then Graft(b, names + [name], KEEP)
             else Graft(Graft(b, names + [name], KEEP), names + [name], Images(entries)))
         == Graft(b, names, map[name := Folder(KEEP + Images(entries))])
  {
    if entries == [] {
      assert KEEP + map[] == KEEP;
    } else {
      GraftTwice(b, names + [name], KEEP, Images(entries));
    }
    GraftBelow(b, names, name, KEEP + Images(entries));
  }

  lemma {:induction false} UploadNode(b: Entry, path: string, node: Node, target: string)
    requires Good(node) && Base(path) != []
    requires '/' in path || (node.Dir? ==> forall i :: 0 <= i < |node.entries| ==> node.entries[i].name != path)
    requires node.Dir? ==> Base(path) !in KidsAt(b, Components(target))
    ensures ApplyPushes(b, PushesNode(path, node, target)) ==
              Graft(b, Components(target), map[Base(path) := Image(node)])
    decreases node, 1
  {
    if node.File? {
      UploadFile(b, path, node, target);
      return;
    }
    var name, folder, at := Base(path), target + "/" + Base(path), Components(target);
    UploadKeep(b, target, name);
    var b1 := Graft(b, at + [name], KEEP);
    UploadEntries(b1, path, node.entries, folder);
    var rest := PushesEntries(path, node.entries, folder);
    assert PushesNode(path, node, target) == [KeepPush(folder)] + rest;
    assert ([KeepPush(folder)] + rest)[1..] == rest;
    GraftFolder(b, at, name, node.entries);
  }

  /** Nothing to upload leaves the bucket alone, and otherwise the images of all entries are grafted. */
  lemma {:induction false} UploadEntries(b: Entry, dir: string, entries: seq<Node>, target: string)
    requires GoodSiblings(entries)
    requires '/' in dir || forall i :: 0 <= i < |entries| ==> entries[i].name != dir
    requires NoClash(entries, KidsAt(b, Components(target)))
    ensures ApplyPushes(b, PushesEntries(dir, entries, target)) ==
              if entries == [] then b else Graft(b, Components(target), Images(entries))
    decreases entries, 0
  {
    if entries == [] { return; }
    var first, rest, at := entries[0], entries[1..], Components(target);
    var path := dir + "/" + first.name;
    assert path[|dir|] == '/';
    assert first.name != dir;
    BaseOfChild(dir, first.name);
    UploadNode(b, path, first, target);
    var one := map[first.name := Image(first)];
    var b1 := Graft(b, at, one);
    KidsAtGraft(b, at, one);
    UploadEntries(b1, dir, rest, target);
    ApplyPushesConcat(b, PushesNode(path, first, target), PushesEntries(dir, rest, target));
    GraftRest(b, at, one, Images(rest));
  }

  /**
   * The sources of one upload: good trees under distinct, plain base names, no
   * folder holding its own whole path as a name.
   */
  predicate GoodItems(items: seq<Item>) {
    && (forall i :: 0 <= i < |items| ==> GoodItem(items[i]))
    && (forall i, j :: 0 <= i < j < |items| ==> Base(items[i].path) != Base(items[j].path))
  }

  predicate GoodItem(item: Item) {
    && Good(item.node)
    && PlainName(Base(item.path))
    && ('/' in item.path
        || (item.node.Dir? ==> forall i :: 0 <= i < |item.node.entries| ==> item.node.entries[i].name != item.path))
  }

  lemma {:induction false} UploadItems(b: Entry, items: seq<Item>, target: string)
    requires GoodItems(items)
    requires NoItemClash(items, KidsAt(b, Components(target)))
    ensures ApplyPushes(b, PushesAll(items, target)) ==
              if items == [] then b else Graft(b, Components(target), ItemImages(items))
    decreases |items|
  {
    if items == [] { return; }
    var first, rest, at := items[0], items[1..], Components(target);
    UploadNode(b, first.path, first.node, target);
    var one := map[Base(first.path) := Image(first.node)];
    KidsAtGraft(b, at, one);
    UploadItems(Graft(b, at, one), rest, target);
    ApplyPushesConcat(b, PushesNode(first.path, first.node, target), PushesAll(rest, target));
    GraftRest(b, at, one, ItemImages(rest));
  }

  // ---------------------------------------------------------------------
  // What the listing should hold
  // ---------------------------------------------------------------------

  predicate HasKeep(ns: seq<Node>) {
    exists i :: 0 <= i < |ns| && ns[i].name == KEEP_NAME
  }

  /** The nodes of a tree found at a path: itself and everything below it, with the keep file of every folder. */
  function Nodes(n: Node, at: seq<string>): seq<Info>
    decreases n, 1
  {
    match n
    case Dir(_, entries, _) =>
      [InfoAt(at, true, 0)]
      + (if HasKeep(entries) then [] else [InfoAt(at + [KEEP_NAME], false, 0)])
      + NodesAll(entries, at)
    case File(_, size, _) => [InfoAt(at, false, size)]
    case _ => [InfoAt(at, false, 0)]
  }

  function NodesAll(ns: seq<Node>, at: seq<string>): seq<Info>
    decreases ns, 0
  {
    if ns == [] then [] else Nodes(ns[0], at + [ns[0].name]) + NodesAll(ns[1..], at)
  }

  function ItemNodes(items: seq<Item>, at: seq<string>): seq<Info> {
    if items == [] then [] else Nodes(items[0].node, at + [Base(items[0].path)]) + ItemNodes(items[1..], at)
  }

  lemma {:induction false} ImagesKeys(ns: seq<Node>, n: string)
    ensures n in Images(ns) <==> exists i :: 0 <= i < |ns| && ns[i].name == n
  {
    if ns != [] {
      var rest := ns[1..];
      ImagesKeys(rest, n);
      if n in Images(rest) {
        var i :| 0 <= i < |rest| && rest[i].name == n;
        assert ns[i + 1] == rest[i];
      } else {
        forall i | 0 < i < |ns| ensures ns[i].name != n {
          assert ns[i] == rest[i - 1];
        }
      }
    }
  }

  ghost predicate ListedIn(kids: map<string, Entry>, at: seq<string>, x: Info) {
    exists n :: n in kids && ListedUnder(kids[n], at, n, x)
  }

  lemma ListedInOneMore(name: string, e: Entry, kids: map<string, Entry>, at: seq<string>, x: Info)
    requires name !in kids
    ensures ListedIn(map[name := e] + kids, at, x) <==> ListedUnder(e, at, name, x) || ListedIn(kids, at, x)
  {
    var more := map[name := e] + kids;
    assert more[name] == e;
    if ListedIn(kids, at, x) {
      var n :| n in kids && ListedUnder(kids[n], at, n, x);
      assert n in more && more[n] == kids[n];
    }
  }

  /** An entry is listed under the images of the siblings exactly when it is one of their nodes. */
  lemma {:induction false} ImagesListed(ns: seq<Node>, at: seq<string>, x: Info)
    requires GoodSiblings(ns)
    ensures ListedIn(Images(ns), at, x) <==> x in NodesAll(ns, at)
    decreases ns, 0
  {
    if ns == [] { return; }
    ImagesListed(ns[1..], at, x);
    ImageListed(ns[0], at, x);
    ImagesKeys(ns[1..], ns[0].name);
    ListedInOneMore(ns[0].name, Image(ns[0]), Images(ns[1..]), at, x);
  }

  lemma {:induction false} ImageListed(n: Node, at: seq<string>, x: Info)
    requires Good(n) && PlainName(n.name)
    ensures ListedUnder(Image(n), at, n.name, x) <==> x in Nodes(n, at + [n.name])
    decreases n, 1
  {
    BelowImage(n, at + [n.name], x);
  }

  lemma {:induction false} BelowImage(n: Node, here: seq<string>, x: Info)
    requires Good(n)
    ensures x == InfoOf(Image(n), here) || Listed(Image(n), here, x) <==> x in Nodes(n, here)
    decreases n, 0
  {
    if n.Dir? {
      var kids := KEEP + Images(n.entries);
      ImagesListed(n.entries, here, x);
      ImagesKeys(n.entries, KEEP_NAME);
      assert forall k :: k in kids ==> k == KEEP_NAME || k in Images(n.entries);
      assert forall k :: k in Images(n.entries) ==> k in kids && kids[k] == Images(n.entries)[k];
      assert KEEP_NAME in kids;
      assert Listed(Image(n), here, x) <==> ListedIn(kids, here, x);
      if !HasKeep(n.entries) {
        assert kids[KEEP_NAME] == Blob(0);
        assert ListedUnder(Blob(0), here, KEEP_NAME, x) <==> x == InfoAt(here + [KEEP_NAME], false, 0);
      }
    }
  }

  lemma {:induction false} ItemImagesKeys(items: seq<Item>, n: string)
    ensures n in ItemImages(items) <==> exists i :: 0 <= i < |items| && Base(items[i].path) == n
  {
    if items != [] {
      var rest := items[1..];
      ItemImagesKeys(rest, n);
      if n in ItemImages(rest) {
        var i :| 0 <= i < |rest| && Base(rest[i].path) == n;
        assert items[i + 1] == rest[i];
      } else {
        forall i | 0 < i < |items| ensures Base(items[i].path) != n {
          assert items[i] == rest[i - 1];
        }
      }
    }
  }

  lemma {:induction false} ItemsListed(items: seq<Item>, at: seq<string>, x: Info)
    requires GoodItems(items)
    ensures ListedIn(ItemImages(items), at, x) <==> x in ItemNodes(items, at)
  {
    if items == [] { return; }
    var first, rest := items[0], items[1..];
    var name := Base(first.path);
    ItemsListed(rest, at, x);
    BelowImage(first.node, at + [name], x);
    ItemImagesKeys(rest, name);
    ListedInOneMore(name, Image(first.node), ItemImages(rest), at, x);
  }

  // ---------------------------------------------------------------------
  // The round trip
  // ---------------------------------------------------------------------

  /** Nothing but meta files is at the target yet. */
  predicate Fresh(b: Entry, target: string) {
    forall n :: n in KidsAt(b, Components(target)) ==> IsMetaFileName(n)
  }

  /**
   * Uploading to a fresh target and listing the target deeply gives each node
   * of the uploaded trees, and the keep file of each uploaded folder, exactly
   * once, in preorder and at the path it has in the tree; and nothing else.
   */
  lemma UploadThenList(b: Entry, items: seq<Item>, target: string, order: Order)
    requires GoodItems(items) && items != [] && Fresh(b, target) && IsOrder(order)
    ensures var after := ApplyPushes(b, PushesAll(items, target));
      var at := Components(target);
      && At(after, at).Some?
      && var listing := ListFolder(At(after, at).value, at, true, order);
         && Distinct(listing) && Preorder(listing, |at|)
         && (forall x :: x in listing <==> x in ItemNodes(items, at))
         && (forall x :: x in listing ==> x.shown == Shown(x.names))
  {
    var at := Components(target);
    forall i | 0 <= i < |items| && items[i].node.Dir? ensures Base(items[i].path) !in KidsAt(b, at) {
      assert GoodItem(items[i]);
    }
    assert NoItemClash(items, KidsAt(b, Components(target)));
    UploadItems(b, items, target);
    AtGraft(b, at, ItemImages(items));
    var old_, kids := KidsAt(b, at), KidsAt(b, at) + ItemImages(items);
    var dir := Folder(kids);
    ListFolderDistinct(dir, at, order);
    ListFolderPreorder(dir, at, order);
    forall x
      ensures x in ListFolder(dir, at, true, order) <==> x in ItemNodes(items, at)
      ensures x in ListFolder(dir, at, true, order) ==> x.shown == Shown(x.names)
    {
      ListFolderListed(dir, at, order, x);
      if Listed(dir, at, x) { ListedShown(dir, at, x); }
      ItemsListed(items, at, x);
      assert forall n :: n in kids ==> n in ItemImages(items) || IsMetaFileName(n);
      assert forall n :: n in ItemImages(items) ==> n in kids && kids[n] == ItemImages(items)[n];
      assert Listed(dir, at, x) <==> ListedIn(kids, at, x);
    }
  }

  /**
   * The paths that are reported are the paths in the trees if and only if no
   * uploaded node lies two or more levels below a folder named ipfs or ipns
   * that is not at the top of the bucket.
   */
  lemma ReportedPathsIff(b: Entry, items: seq<Item>, target: string, order: Order)
    requires GoodItems(items) && items != [] && Fresh(b, target) && IsOrder(order)
    ensures var after, at := ApplyPushes(b, PushesAll(items, target)), Components(target);
      && At(after, at).Some?
      && ((forall x :: x in ListFolder(At(after, at).value, at, true, order) ==> x.shown == x.names) <==>
          (forall x :: x in ItemNodes(items, at) ==> NoPrefixInside(x.names)))
  {
    UploadThenList(b, items, target, order);
    var at := Components(target);
    var listing := ListFolder(At(ApplyPushes(b, PushesAll(items, target)), at).value, at, true, order);
    forall x | x in listing ensures x.shown == x.names <==> NoPrefixInside(x.names) {
      ShownIffNoPrefix(x.names);
    }
    assert forall x :: x in listing <==> x in ItemNodes(items, at);
  }

  /** A folder with one entry. */
  function Only(name: string, entry: Node): Node {
    Dir(name, [entry], true)
  }

  lemma OnlyIsGood(name: string, entry: Node)
    requires Good(entry) && PlainName(entry.name) && entry.name != KEEP_NAME
    ensures Good(Only(name, entry))
  {
    assert GoodSiblings([entry]);
  }

  const DOCS := Only("docs", Only("ipfs", Only("x", File("y", 1, Uploads))))

  lemma DocsHoldsFile()
    ensures Good(DOCS) && InfoAt(["docs", "ipfs", "x", "y"], false, 1) in Nodes(DOCS, ["docs"])
  {
    var leaf := File("y", 1, Uploads);
    var x := Only("x", leaf);
    var ipfs := Only("ipfs", x);
    OnlyIsGood("x", leaf);
    OnlyIsGood("ipfs", x);
    OnlyIsGood("docs", ipfs);
    var info := InfoAt(["docs", "ipfs", "x"] + ["y"], false, 1);
    assert ["docs", "ipfs"] + ["x"] == ["docs", "ipfs", "x"];
    assert ["docs"] + ["ipfs"] == ["docs", "ipfs"];
    assert ["docs", "ipfs", "x"] + ["y"] == ["docs", "ipfs", "x", "y"];
  }

  lemma DocsItem()
    ensures var items := [Item("/docs", DOCS)];
      GoodItems(items) && ItemNodes(items, []) == Nodes(DOCS, ["docs"])
  {
    var items := [Item("/docs", DOCS)];
    BaseOfChild("", "docs");
    assert "" + "/" + "docs" == "/docs";
    DocsHoldsFile();
    assert items[0].path[0] == '/';
    assert GoodItem(items[0]);
    assert items[1..] == [] && [] + ["docs"] == ["docs"];
    assert Nodes(DOCS, ["docs"]) + [] == Nodes(DOCS, ["docs"]);
  }

  /** The file docs/ipfs/x/y, uploaded to the root of an empty bucket, is reported as y. */
  lemma PrefixedPathIsCut(order: Order)
    requires IsOrder(order)
    ensures var items := [Item("/docs", DOCS)];
      var after := ApplyPushes(Folder(map[]), PushesAll(items, ""));
      && GoodItems(items) && At(after, []).Some?
      && Info(["docs", "ipfs", "x", "y"], ["y"], false, 1) in ListFolder(At(after, []).value, [], true, order)
  {
    DocsItem();
    DocsHoldsFile();
    RootPaths();
    var at: seq<string> := ["docs", "ipfs", "x", "y"];
    assert Shown(at) == at[3..] == ["y"];
    UploadThenList(Folder(map[]), [Item("/docs", DOCS)], "", order);
  }

  lemma OnlyName(keys: seq<string>, name: string)
    requires AddItems.Distinct(keys) && forall x :: x in keys <==> x == name
    ensures keys == [name]
  {
    assert name in keys;
    var last := keys[|keys| - 1];
    assert last in keys && keys[0] in keys;
  }

  /** The five names that are passed over; the keep file is not among them. */
  lemma HiddenNames(e: Entry, at: seq<string>, deep: bool, order: Order, name: string, kid: Entry)
    requires IsOrder(order) && e == Folder(map[name := kid])
    ensures name in [".textileseed", ".textile", ".DS_Store", ".Trashes", ".localized"] <==>
      ListFolder(e, at, deep, order) == []
    ensures name == KEEP_NAME ==> InfoOf(kid, at + [name]) in ListFolder(e, at, deep, order)
  {
    var keys := order(Kids(e).Keys);
    assert Kids(e).Keys == {name};
    OnlyName(keys, name);
    assert keys[1..] == [] && ListNames(e, keys[1..], at, deep, order) == [];
    assert ListFolder(e, at, deep, order) == ListNames(e, keys, at, deep, order);
  }

  // ---------------------------------------------------------------------
  // The two calls one after the other
  // ---------------------------------------------------------------------

  lemma {:induction false} ImagePlain(n: Node)
    requires Good(n)
    ensures PlainNames(Image(n))
    decreases n, 1
  {
    if n.Dir? {
      ImagesPlain(n.entries);
      assert '/' !in KEEP_NAME;
    }
  }

  lemma {:induction false} ImagesPlain(ns: seq<Node>)
    requires GoodSiblings(ns)
    ensures forall n :: n in Images(ns) ==> '/' !in n && n != [] && PlainNames(Images(ns)[n])
    decreases ns, 0
  {
    if ns != [] {
      ImagePlain(ns[0]);
      ImagesPlain(ns[1..]);
    }
  }

  lemma {:induction false} ItemImagesPlain(items: seq<Item>)
    requires GoodItems(items)
    ensures forall n :: n in ItemImages(items) ==> '/' !in n && n != [] && PlainNames(ItemImages(items)[n])
  {
    if items != [] {
      ImagePlain(items[0].node);
      ItemImagesPlain(items[1..]);
    }
  }

  /** AddItems followed by ListDirs on the same target. */
  method AddItemsThenListDirs(u: Uploader, items: seq<Item>, target: string, order: Order) returns (listing: seq<Info>)
    requires GoodItems(items) && items != [] && Fresh(u.bucket, target) && IsOrder(order)
    modifies u
    ensures Distinct(listing) && Preorder(listing, |Components(target)|)
    ensures forall x :: x in listing <==> x in ItemNodes(items, Components(target))
    ensures forall x :: x in listing ==> x.shown == Shown(x.names)
  {
    ghost var before := u.bucket;
    u.AddItems(items, target);
    UploadThenList(before, items, target, order);
    PlainAfter(before, items, target);
    var r := ListDirAtPath(u.bucket, target, true, order);
    listing := r.value;
  }

  lemma PlainAfter(b: Entry, items: seq<Item>, target: string)
    requires GoodItems(items) && items != [] && Fresh(b, target)
    ensures PlainNames(EntryAt(ApplyPushes(b, PushesAll(items, target)), target))
  {
    forall i | 0 <= i < |items| && items[i].node.Dir?
      ensures Base(items[i].path) !in KidsAt(b, Components(target))
    {
      assert GoodItem(items[i]);
    }
    assert NoItemClash(items, KidsAt(b, Components(target)));
    UploadItems(b, items, target);
    AtGraft(b, Components(target), ItemImages(items));
    ItemImagesPlain(items);
  }
}
