/**
 * Uploading source trees (AddItems and the functions it recurses through):
 * the results it streams and the pushes it makes.
 */
module AddItems {
  import opened SourceTree
  import opened Paths
  import opened Buckets

  /** A source path together with the node found there. */
  datatype Item = Item(path: string, node: Node)

  datatype Result = Result(source: string, bytes: nat, failed: bool)

  function NodesOf(items: seq<Item>): (nodes: seq<Node>)
    ensures |nodes| == |items|
    ensures forall i :: 0 <= i < |items| ==> nodes[i] == items[i].node
  {
    if items == [] then [] else [items[0].node] + NodesOf(items[1..])
  }

  // ---------------------------------------------------------------------
  // Specification
  // ---------------------------------------------------------------------

  /** The children of a folder that addFolderRec hands on. */
  function SubItems(dir: string, entries: seq<Node>): seq<Item> {
    if entries == [] then []
    else
      (if entries[0].name == dir then [] else [Item(dir + "/" + entries[0].name, entries[0])])
      + SubItems(dir, entries[1..])
  }

  function StreamNode(path: string, node: Node): seq<Result>
    decreases node, 1
  {
    match node
    case File(_, size, upload) => [Result(path, if upload == Uploads then size else 0, upload != Uploads)]
    case Missing(_) => [Result(path, 0, true)]
    case UnreadableDir(_, creates) =>
      if creates then [Result(path, 0, false), Result(path, 0, true)] else [Result(path, 0, true)]
    case Dir(_, entries, creates) =>
      if creates then [Result(path, 0, false)] + StreamEntries(path, entries) else [Result(path, 0, true)]
  }

  function StreamEntries(dir: string, entries: seq<Node>): seq<Result>
    decreases entries, 0
  {
    if entries == [] then []
    else
      (if entries[0].name == dir then [] else StreamNode(dir + "/" + entries[0].name, entries[0]))
      + StreamEntries(dir, entries[1..])
  }

  function StreamAll(items: seq<Item>): seq<Result> {
    if items == [] then [] else StreamNode(items[0].path, items[0].node) + StreamAll(items[1..])
  }

  function FileTarget(target: string, name: string): string {
    if target == "" || target == "/" then name else target + "/" + name
  }

  /** CreateDirectory pushes an empty keep file. */
  function KeepPush(folder: string): Push {
    Push(TrimRightSlashes(folder) + "/" + KEEP_NAME, 0)
  }

  function PushesNode(path: string, node: Node, target: string): seq<Push>
    decreases node, 1
  {
    var folder := target + "/" + Base(path);
    match node
    case File(_, size, upload) => if upload == Refused then [] else [Push(FileTarget(target, Base(path)), size)]
    case Missing(_) => []
    case UnreadableDir(_, creates) => if creates then [KeepPush(folder)] else []
    case Dir(_, entries, creates) =>
      if creates then [KeepPush(folder)] + PushesEntries(path, entries, folder) else []
  }

  function PushesEntries(dir: string, entries: seq<Node>, target: string): seq<Push>
    decreases entries, 0
  {
    if entries == [] then []
    else
      (if entries[0].name == dir then [] else PushesNode(dir + "/" + entries[0].name, entries[0], target))
      + PushesEntries(dir, entries[1..], target)
  }

  function PushesAll(items: seq<Item>, target: string): seq<Push> {
    if items == [] then []
    else PushesNode(items[0].path, items[0].node, target) + PushesAll(items[1..], target)
  }

  lemma {:induction false} SubItemsStream(dir: string, entries: seq<Node>)
    ensures StreamAll(SubItems(dir, entries)) == StreamEntries(dir, entries)
  {
    if entries != [] {
      SubItemsStream(dir, entries[1..]);
      var rest := SubItems(dir, entries[1..]);
      if entries[0].name == dir {
        assert SubItems(dir, entries) == rest;
      } else {
        assert SubItems(dir, entries)[1..] == rest;
      }
    }
  }

  lemma {:induction false} SubItemsPushes(dir: string, entries: seq<Node>, target: string)
    ensures PushesAll(SubItems(dir, entries), target) == PushesEntries(dir, entries, target)
  {
    if entries != [] {
      SubItemsPushes(dir, entries[1..], target);
      var rest := SubItems(dir, entries[1..]);
      if entries[0].name == dir {
        assert SubItems(dir, entries) == rest;
      } else {
        assert SubItems(dir, entries)[1..] == rest;
      }
    }
  }

  // ---------------------------------------------------------------------
  // The recursion, with its streamed results and its bucket
  // ---------------------------------------------------------------------

  function Weight(n: Node): nat
    decreases n, 1
  {
    if n.Dir? then 1 + WeightNodes(n.entries) else 1
  }

  function WeightNodes(ns: seq<Node>): nat
    decreases ns, 0
  {
    if ns == [] then 0 else Weight(ns[0]) + WeightNodes(ns[1..])
  }

  function WeightAll(items: seq<Item>): nat {
    if items == [] then 0 else Weight(items[0].node) + WeightAll(items[1..])
  }

  lemma {:induction false} WeightAt(items: seq<Item>, i: nat)
    requires i < |items|
    ensures Weight(items[i].node) <= WeightAll(items)
  {
    if i > 0 { WeightAt(items[1..], i - 1); }
  }

  lemma {:induction false} WeightSub(dir: string, entries: seq<Node>)
    ensures WeightAll(SubItems(dir, entries)) <= WeightNodes(entries)
  {
    if entries != [] {
      WeightSub(dir, entries[1..]);
      if entries[0].name == dir {
        assert SubItems(dir, entries) == SubItems(dir, entries[1..]);
      } else {
        assert SubItems(dir, entries)[1..] == SubItems(dir, entries[1..]);
      }
    }
  }

  lemma {:induction false} StreamSnoc(items: seq<Item>, i: nat)
    requires i < |items|
    ensures StreamAll(items[..i + 1]) == StreamAll(items[..i]) + StreamNode(items[i].path, items[i].node)
  {
    var shorter, longer := items[..i], items[..i + 1];
    if i == 0 {
      assert longer == [items[0]] && shorter == [];
    } else {
      assert longer[1..] == items[1..][..i] && shorter[1..] == items[1..][..i - 1];
      StreamSnoc(items[1..], i - 1);
    }
  }

  lemma {:induction false} PushesSnoc(items: seq<Item>, i: nat, target: string)
    requires i < |items|
    ensures PushesAll(items[..i + 1], target) ==
              PushesAll(items[..i], target) + PushesNode(items[i].path, items[i].node, target)
  {
    var shorter, longer := items[..i], items[..i + 1];
    if i == 0 {
      assert longer == [items[0]] && shorter == [];
    } else {
      assert longer[1..] == items[1..][..i] && shorter[1..] == items[1..][..i - 1];
      PushesSnoc(items[1..], i - 1, target);
    }
  }

  lemma {:induction false} SubItemsSnoc(dir: string, entries: seq<Node>, i: nat)
    requires i < |entries|
    ensures SubItems(dir, entries[..i + 1]) == SubItems(dir, entries[..i])
      + (if entries[i].name == dir then [] else [Item(dir + "/" + entries[i].name, entries[i])])
  {
    var shorter, longer := entries[..i], entries[..i + 1];
    if i == 0 {
      assert longer == [entries[0]] && shorter == [] && longer[1..] == [];
    } else {
      assert longer[1..] == entries[1..][..i] && shorter[1..] == entries[1..][..i - 1];
      SubItemsSnoc(dir, entries[1..], i - 1);
    }
  }

  predicate IsPathDir(n: Node) {
    n.Dir? || n.UnreadableDir?
  }

  /** What handling item i adds to what handling the items before it has done. */
  lemma OneMore(items: seq<Item>, i: nat, target: string, results: seq<Result>, bucket: Entry)
    requires i < |items|
    ensures results + StreamAll(items[..i + 1]) ==
              results + StreamAll(items[..i]) + StreamNode(items[i].path, items[i].node)
    ensures ApplyPushes(bucket, PushesAll(items[..i + 1], target)) ==
              ApplyPushes(ApplyPushes(bucket, PushesAll(items[..i], target)),
                          PushesNode(items[i].path, items[i].node, target))
  {
    StreamSnoc(items, i);
    PushesSnoc(items, i, target);
    ApplyPushesConcat(bucket, PushesAll(items[..i], target), PushesNode(items[i].path, items[i].node, target));
  }

  /** A folder that is created: its own result and push, and then those of what is below it. */
  lemma ReadableFolder(item: Item, target: string, results: seq<Result>, bucket: Entry)
    requires item.node.Dir? && item.node.creates
    ensures var folder, entries := target + "/" + Base(item.path), item.node.entries;
      && results + StreamNode(item.path, item.node) ==
           results + [Result(item.path, 0, false)] + StreamEntries(item.path, entries)
      && ApplyPushes(bucket, PushesNode(item.path, item.node, target)) ==
           ApplyPushes(ApplyPush(bucket, KeepPush(folder)), PushesEntries(item.path, entries, folder))
  {
    var folder := target + "/" + Base(item.path);
    var below := PushesEntries(item.path, item.node.entries, folder);
    ApplyFirst(bucket, KeepPush(folder), below);
    assert PushesNode(item.path, item.node, target) == [KeepPush(folder)] + below;
    Associates(results, [Result(item.path, 0, false)], StreamEntries(item.path, item.node.entries));
  }

  lemma Associates<T>(a: seq<T>, b: seq<T>, c: seq<T>)
    ensures a + (b + c) == a + b + c
  {
  }

  lemma UnreadableFolder(item: Item, target: string, results: seq<Result>, bucket: Entry)
    requires item.node.UnreadableDir? && item.node.creates
    ensures results + StreamNode(item.path, item.node) ==
      results + [Result(item.path, 0, false)] + [Result(item.path, 0, true)]
    ensures ApplyPushes(bucket, PushesNode(item.path, item.node, target)) ==
      ApplyPush(bucket, KeepPush(target + "/" + Base(item.path)))
  {
    ApplyFirst(bucket, KeepPush(target + "/" + Base(item.path)), []);
  }

  class Uploader {
    var results: seq<Result>
    var bucket: Entry

    constructor (bucket: Entry)
      ensures results == [] && this.bucket == bucket
    {
      results, this.bucket := [], bucket;
    }

    method AddItems(items: seq<Item>, target: string)
      modifies this
      ensures results == old(results) + StreamAll(items)
      ensures bucket == ApplyPushes(old(bucket), PushesAll(items, target))
      decreases WeightAll(items), 3
    {
      var i := 0;
      assert items[..0] == [];
      while i < |items|
        invariant 0 <= i <= |items|
        invariant results == old(results) + StreamAll(items[..i])
        invariant bucket == ApplyPushes(old(bucket), PushesAll(items[..i], target))
      {
        WeightAt(items, i);
        AddItem(items[i], target);
        OneMore(items, i, target, old(results), old(bucket));
        i := i + 1;
      }
      assert items[..i] == items;
    }

    /** The body of the loop over the source paths. */
    method AddItem(item: Item, target: string)
      modifies this
      ensures results == old(results) + StreamNode(item.path, item.node)
      ensures bucket == ApplyPushes(old(bucket), PushesNode(item.path, item.node, target))
      decreases Weight(item.node), 2
    {
      if IsPathDir(item.node) {
        HandleAddItemFolder(item, target);
      } else {
        AddFile(item, target);
      }
    }

    method AddFile(item: Item, target: string)
      requires !IsPathDir(item.node)
      modifies this
      ensures results == old(results) + StreamNode(item.path, item.node)
      ensures bucket == ApplyPushes(old(bucket), PushesNode(item.path, item.node, target))
    {
      match item.node {
        case File(_, size, upload) =>
          if upload == Refused {
            results := results + [Result(item.path, 0, true)];
          } else {
            bucket := ApplyPush(bucket, Push(FileTarget(target, Base(item.path)), size));
            results := results + [Result(item.path, if upload == Uploads then size else 0, upload != Uploads)];
          }
        case Missing(_) =>
          results := results + [Result(item.path, 0, true)];
      }
    }

    method HandleAddItemFolder(item: Item, target: string)
      requires IsPathDir(item.node)
      modifies this
      ensures results == old(results) + StreamNode(item.path, item.node)
      ensures bucket == ApplyPushes(old(bucket), PushesNode(item.path, item.node, target))
      decreases Weight(item.node), 1
    {
      var folder := target + "/" + Base(item.path);
      if !item.node.creates {
        results := results + [Result(item.path, 0, true)];
        return;
      }
      if item.node.Dir? {
        ReadableFolder(item, target, results, bucket);
      } else {
        UnreadableFolder(item, target, results, bucket);
      }
      bucket := ApplyPush(bucket, KeepPush(folder));
      results := results + [Result(item.path, 0, false)];
      var ok := AddFolderRec(item, folder);
      if !ok {
        results := results + [Result(item.path, 0, true)];
      }
    }

    method AddFolderRec(item: Item, target: string) returns (ok: bool)
      requires IsPathDir(item.node)
      modifies this
      ensures ok <==> item.node.Dir?
      ensures ok ==> results == old(results) + StreamEntries(item.path, item.node.entries)
      ensures ok ==> bucket == ApplyPushes(old(bucket), PushesEntries(item.path, item.node.entries, target))
      ensures !ok ==> results == old(results) && bucket == old(bucket)
      decreases Weight(item.node), 0
    {
      if item.node.UnreadableDir? { return false; }
      var subItems := FolderSubItems(item.path, item.node.entries);
      WeightSub(item.path, item.node.entries);
      SubItemsStream(item.path, item.node.entries);
      SubItemsPushes(item.path, item.node.entries, target);
      AddItems(subItems, target);
      ok := true;
    }
  }

  /** The loop of addFolderRec over the directory entries it has read. */
  method FolderSubItems(dir: string, entries: seq<Node>) returns (subItems: seq<Item>)
    ensures subItems == SubItems(dir, entries)
  {
    subItems := [];
    var i := 0;
    assert entries[..0] == [];
    while i < |entries|
      invariant 0 <= i <= |entries|
      invariant subItems == SubItems(dir, entries[..i])
    {
      SubItemsSnoc(dir, entries, i);
      if entries[i].name != dir {
        subItems := subItems + [Item(dir + "/" + entries[i].name, entries[i])];
      }
      i := i + 1;
    }
    assert entries[..i] == entries;
  }

  // ---------------------------------------------------------------------
  // Duplicate source paths
  // ---------------------------------------------------------------------

  function Dedup(s: seq<string>): seq<string> {
    if s == [] then []
    else
      var n := |s| - 1;
      if s[n] in s[..n] then Dedup(s[..n]) else Dedup(s[..n]) + [s[n]]
  }

  method RemoveDuplicates(elements: seq<string>) returns (result: seq<string>)
    ensures result == Dedup(elements)
  {
    var encountered: set<string> := {};
    result := [];
    assert elements[..0] == [];
    for v := 0 to |elements|
      invariant forall x :: x in encountered <==> x in elements[..v]
      invariant result == Dedup(elements[..v])
    {
      assert elements[..v + 1][..v] == elements[..v];
      if elements[v] !in encountered {
        encountered := encountered + {elements[v]};
        result := result + [elements[v]];
      }
    }
    assert elements[..|elements|] == elements;
  }

  predicate Distinct<T(==)>(s: seq<T>) {
    forall i, j :: 0 <= i < j < |s| ==> s[i] != s[j]
  }

  /** The same paths, each once. */
  lemma {:induction false} DedupKeepsEachOnce(s: seq<string>)
    ensures Distinct(Dedup(s))
    ensures forall x :: x in Dedup(s) <==> x in s
  {
    if s != [] {
      var n := |s| - 1;
      DedupKeepsEachOnce(s[..n]);
      assert s == s[..n] + [s[n]];
    }
  }

  /** Where the path stands first. */
  function FirstAt(s: seq<string>, x: string): (i: nat)
    requires x in s
    ensures i < |s| && s[i] == x && x !in s[..i]
  {
    if s[0] == x then 0 else 1 + FirstAt(s[1..], x)
  }

  /** In the order in which they stand first. */
  lemma {:induction false} DedupKeepsOrder(s: seq<string>, i: nat, j: nat)
    requires i < j < |Dedup(s)|
    ensures Dedup(s)[i] in s && Dedup(s)[j] in s
    ensures FirstAt(s, Dedup(s)[i]) < FirstAt(s, Dedup(s)[j])
  {
    DedupKeepsEachOnce(s);
    var n := |s| - 1;
    var before := s[..n];
    assert s == before + [s[n]];
    DedupKeepsEachOnce(before);
    var x, y := Dedup(s)[i], Dedup(s)[j];
    FirstStays(before, s[n], x);
    if j < |Dedup(before)| {
      DedupKeepsOrder(before, i, j);
      FirstStays(before, s[n], y);
    } else {
      assert y == s[n] && y !in before;
    }
  }

  lemma {:induction false} FirstStays(s: seq<string>, last: string, x: string)
    requires x in s
    ensures FirstAt(s + [last], x) == FirstAt(s, x)
  {
    if s[0] != x {
      assert (s + [last])[1..] == s[1..] + [last];
      FirstStays(s[1..], last, x);
    }
  }
}
