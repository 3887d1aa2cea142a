/** What the streamed results of an upload add up to, against the totals computed before it. */
module UploadLaws {
  import opened SourceTree
  import opened AddItems
  import GetTotals

  function SumBytes(rs: seq<Result>): nat {
    if rs == [] then 0 else rs[0].bytes + SumBytes(rs[1..])
  }

  lemma {:induction false} SumBytesConcat(a: seq<Result>, b: seq<Result>)
    ensures SumBytes(a + b) == SumBytes(a) + SumBytes(b)
  {
    if a == [] {
      assert a + b == b;
    } else {
      assert (a + b)[1..] == a[1..] + b;
      SumBytesConcat(a[1..], b);
    }
  }

  // ---------------------------------------------------------------------
  // Nodes that stream no result
  // ---------------------------------------------------------------------

  /** The descendants of the folders whose creation failed. */
  function Lost(path: string, node: Node): nat
    decreases node, 1
  {
    if !node.Dir? then 0
    else if !node.creates then CountAll(node.entries).files
    else LostEntries(path, node.entries)
  }

  function LostEntries(dir: string, entries: seq<Node>): nat
    decreases entries, 0
  {
    if entries == [] then 0
    else
      (if entries[0].name == dir then 0 else Lost(dir + "/" + entries[0].name, entries[0]))
      + LostEntries(dir, entries[1..])
  }

  function LostAll(items: seq<Item>): nat {
    if items == [] then 0 else Lost(items[0].path, items[0].node) + LostAll(items[1..])
  }

  /** The nodes under a child that is passed over because its name is the path of its folder. */
  function Skipped(path: string, node: Node): nat
    decreases node, 1
  {
    if node.Dir? && node.creates then SkippedEntries(path, node.entries) else 0
  }

  function SkippedEntries(dir: string, entries: seq<Node>): nat
    decreases entries, 0
  {
    if entries == [] then 0
    else
      (if entries[0].name == dir then Count(entries[0]).files
       else Skipped(dir + "/" + entries[0].name, entries[0]))
      + SkippedEntries(dir, entries[1..])
  }

  function SkippedAll(items: seq<Item>): nat {
    if items == [] then 0 else Skipped(items[0].path, items[0].node) + SkippedAll(items[1..])
  }

  lemma {:induction false} CountNode(path: string, node: Node)
    requires !Fails(node)
    ensures |StreamNode(path, node)| + Lost(path, node) + Skipped(path, node) == Count(node).files
    decreases node, 1
  {
    if node.Dir? && node.creates {
      CountEntries(path, node.entries);
    }
  }

  lemma {:induction false} CountEntries(dir: string, entries: seq<Node>)
    requires !AnyFails(entries)
    ensures |StreamEntries(dir, entries)| + LostEntries(dir, entries) + SkippedEntries(dir, entries)
              == CountAll(entries).files
    decreases entries, 0
  {
    if entries != [] {
      CountEntries(dir, entries[1..]);
      if entries[0].name != dir {
        CountNode(dir + "/" + entries[0].name, entries[0]);
      }
    }
  }

  /** Conservation: every counted node streams one result, is lost with a failed folder, or is skipped. */
  lemma {:induction false} Conservation(items: seq<Item>)
    requires !AnyFails(NodesOf(items))
    ensures |StreamAll(items)| + LostAll(items) + SkippedAll(items) == CountAll(NodesOf(items)).files
  {
    if items != [] {
      assert NodesOf(items)[1..] == NodesOf(items[1..]);
      CountNode(items[0].path, items[0].node);
      Conservation(items[1..]);
    }
  }

  // ---------------------------------------------------------------------
  // Exactly when the results match the totals
  // ---------------------------------------------------------------------

  /** File names hold no slash. */
  predicate GoodNames(node: Node) {
    node.Dir? ==> forall i :: 0 <= i < |node.entries| ==> '/' !in node.entries[i].name && GoodNames(node.entries[i])
  }

  /** The source folder is created and has a child named like the whole source path, as "a" with "a/a". */
  predicate SkipsChild(path: string, node: Node) {
    node.Dir? && node.creates && exists i :: 0 <= i < |node.entries| && node.entries[i].name == path
  }

  /** Below a path that holds a slash nothing is skipped. */
  lemma {:induction false} NestedSkipsNothing(path: string, node: Node)
    requires GoodNames(node) && '/' in path
    ensures Skipped(path, node) == 0
    decreases node, 1
  {
    if node.Dir? && node.creates {
      EntriesSkipNothing(path, node.entries);
    }
  }

  predicate GoodEntries(entries: seq<Node>) {
    forall i :: 0 <= i < |entries| ==> '/' !in entries[i].name && GoodNames(entries[i])
  }

  lemma {:induction false} EntriesSkipNothing(dir: string, entries: seq<Node>)
    requires GoodEntries(entries)
    ensures SkippedEntries(dir, entries) == 0 <==> forall i :: 0 <= i < |entries| ==> entries[i].name != dir
    ensures '/' in dir ==> SkippedEntries(dir, entries) == 0
    decreases entries, 0
  {
    if entries != [] {
      var rest := entries[1..];
      assert forall i :: 0 <= i < |rest| ==> rest[i] == entries[i + 1];
      EntriesSkipNothing(dir, rest);
      if entries[0].name != dir {
        var path := dir + "/" + entries[0].name;
        assert path[|dir|] == '/';
        NestedSkipsNothing(path, entries[0]);
        if forall i :: 0 <= i < |rest| ==> rest[i].name != dir {
          forall i | 0 <= i < |entries| ensures entries[i].name != dir {
            if i > 0 { assert entries[i] == rest[i - 1]; }
          }
        }
      }
    }
  }

  lemma SkippedIff(path: string, node: Node)
    requires GoodNames(node)
    ensures Skipped(path, node) == 0 <==> !SkipsChild(path, node)
  {
    if node.Dir? && node.creates {
      EntriesSkipNothing(path, node.entries);
    }
  }

  lemma {:induction false} SkippedAllIff(items: seq<Item>)
    requires forall i :: 0 <= i < |items| ==> GoodNames(items[i].node)
    ensures SkippedAll(items) == 0 <==> forall i :: 0 <= i < |items| ==> !SkipsChild(items[i].path, items[i].node)
  {
    if items != [] {
      SkippedIff(items[0].path, items[0].node);
      SkippedAllIff(items[1..]);
      var rest := items[1..];
      assert forall i :: 0 <= i < |rest| ==> rest[i] == items[i + 1];
      if forall i :: 0 <= i < |rest| ==> !SkipsChild(rest[i].path, rest[i].node) {
        forall i | 0 < i < |items| ensures !SkipsChild(items[i].path, items[i].node) {
          assert items[i] == rest[i - 1];
        }
      }
    }
  }

  /**
   * For whatever interleaving computed the totals: when they carry no error,
   * the upload streams TotalFiles results minus the descendants of the folders
   * that could not be created, exactly when no source folder has a child named
   * like its whole path.
   */
  lemma ResultsMatchTotals(items: seq<Item>, run: seq<GetTotals.Level>, acts: seq<GetTotals.Action>)
    requires forall i :: 0 <= i < |items| ==> GoodNames(items[i].node)
    requires GetTotals.IsRun(NodesOf(items), run, acts)
    requires run[|acts|].main == GetTotals.Returned && !run[|acts|].collectErr
    ensures |StreamAll(items)| == run[|acts|].total.files - LostAll(items)
            <==> forall i :: 0 <= i < |items| ==> !SkipsChild(items[i].path, items[i].node)
  {
    GetTotals.ReturnsTheCount(NodesOf(items), run, acts, |acts|);
    Conservation(items);
    SkippedAllIff(items);
  }

  /** A relative source folder "a" holding a file "a": two nodes are counted, one result is streamed. */
  lemma SelfNamedChildIsLost()
    ensures var items := [Item("a", Dir("a", [File("a", 7, Uploads)], true))];
      |StreamAll(items)| == 1 && CountAll(NodesOf(items)).files == 2 && LostAll(items) == 0
  {
    var child := File("a", 7, Uploads);
    var node := Dir("a", [child], true);
    var items := [Item("a", node)];
    assert NodesOf(items) == [node] && items[1..] == [] && [child][1..] == [] && [node][1..] == [];
    assert StreamEntries("a", [child]) == [];
    assert CountAll([child]).files == 1;
    assert LostEntries("a", [child]) == 0;
  }

  // ---------------------------------------------------------------------
  // Bytes
  // ---------------------------------------------------------------------

  predicate Succeeds(node: Node) {
    match node
    case File(_, _, upload) => upload == Uploads
    case Dir(_, entries, creates) => creates && forall i :: 0 <= i < |entries| ==> Succeeds(entries[i])
    case _ => false
  }

  lemma {:induction false} BytesNode(path: string, node: Node)
    ensures SumBytes(StreamNode(path, node)) <= Count(node).bytes
    ensures Succeeds(node) && Skipped(path, node) == 0 ==> SumBytes(StreamNode(path, node)) == Count(node).bytes
    decreases node, 1
  {
    match node
    case Dir(_, entries, creates) =>
      if creates {
        BytesEntries(path, entries);
        SumBytesConcat([Result(path, 0, false)], StreamEntries(path, entries));
      }
    case UnreadableDir(_, creates) =>
      if creates {
        SumBytesConcat([Result(path, 0, false)], [Result(path, 0, true)]);
        assert StreamNode(path, node) == [Result(path, 0, false)] + [Result(path, 0, true)];
      }
    case _ =>
  }

  predicate AllSucceed(nodes: seq<Node>) {
    forall i :: 0 <= i < |nodes| ==> Succeeds(nodes[i])
  }

  lemma {:induction false} BytesEntries(dir: string, entries: seq<Node>)
    ensures SumBytes(StreamEntries(dir, entries)) <= CountAll(entries).bytes
    ensures AllSucceed(entries) && SkippedEntries(dir, entries) == 0 ==>
              SumBytes(StreamEntries(dir, entries)) == CountAll(entries).bytes
    decreases entries, 0
  {
    if entries != [] {
      var path := dir + "/" + entries[0].name;
      BytesEntries(dir, entries[1..]);
      assert AllSucceed(entries) ==> AllSucceed(entries[1..]);
      if entries[0].name != dir {
        BytesNode(path, entries[0]);
        SumBytesConcat(StreamNode(path, entries[0]), StreamEntries(dir, entries[1..]));
      } else {
        SumBytesConcat([], StreamEntries(dir, entries[1..]));
      }
    }
  }

  /** The result bytes never exceed TotalBytes, and reach it when nothing fails and nothing is skipped. */
  lemma {:induction false} BytesMatchTotals(items: seq<Item>)
    ensures SumBytes(StreamAll(items)) <= CountAll(NodesOf(items)).bytes
    ensures AllSucceed(NodesOf(items)) && SkippedAll(items) == 0 ==>
              SumBytes(StreamAll(items)) == CountAll(NodesOf(items)).bytes
  {
    if items != [] {
      BytesNode(items[0].path, items[0].node);
      BytesMatchTotals(items[1..]);
      assert NodesOf(items)[1..] == NodesOf(items[1..]);
      assert AllSucceed(NodesOf(items)) ==> AllSucceed(NodesOf(items)[1..]);
      SumBytesConcat(StreamNode(items[0].path, items[0].node), StreamAll(items[1..]));
    }
  }
}
