/**
 * Which results an upload streams: told by the nodes of the source trees and
 * the paths at which they lie, and carried to the messages the client gets.
 */
module UploadReports {
  import opened SourceTree
  import opened AddItems
  import ProgressStream

  // ---------------------------------------------------------------------
  // The nodes that are tried
  // ---------------------------------------------------------------------

  /** A folder that is created and read has its children tried, all but one named like the folder's whole path. */
  predicate Opens(x: Item, i: nat) {
    x.node.Dir? && x.node.creates && i < |x.node.entries| && x.node.entries[i].name != x.path
  }

  /** Child i of the folder, at its path. */
  function ChildAt(x: Item, i: nat): Item
    requires x.node.Dir? && i < |x.node.entries|
  {
    Item(x.path + "/" + x.node.entries[i].name, x.node.entries[i])
  }

  /** y is x, or lies below x with every folder on the way opened. */
  ghost predicate LeadsTo(x: Item, y: Item)
    decreases x.node
  {
    x == y || exists i: nat :: Opens(x, i) && LeadsTo(ChildAt(x, i), y)
  }

  /** y is a node of the source trees that the upload tries. */
  ghost predicate IsTried(items: seq<Item>, y: Item) {
    exists i :: 0 <= i < |items| && LeadsTo(items[i], y)
  }

  /** A file that uploads, or a folder that is created. */
  predicate Arrives(n: Node) {
    match n
    case File(_, _, upload) => upload == Uploads
    case Dir(_, _, creates) => creates
    case UnreadableDir(_, creates) => creates
    case Missing(_) => false
  }

  /** A node with which something went wrong: it did not arrive, or it is a folder that cannot be read. */
  predicate GoesWrong(n: Node) {
    !Arrives(n) || n.UnreadableDir?
  }

  function SizeOf(n: Node): nat {
    if n.File? then n.size else 0
  }

  // ---------------------------------------------------------------------
  // The tried nodes in order
  // ---------------------------------------------------------------------

  function Tried(x: Item): seq<Item>
    decreases x.node, 1
  {
    [x] + if x.node.Dir? && x.node.creates then TriedEntries(x.path, x.node.entries) else []
  }

  function TriedEntries(dir: string, entries: seq<Node>): seq<Item>
    decreases entries, 0
  {
    if entries == [] then []
    else
      (if entries[0].name == dir then [] else Tried(Item(dir + "/" + entries[0].name, entries[0])))
      + TriedEntries(dir, entries[1..])
  }

  function TriedAll(items: seq<Item>): seq<Item> {
    if items == [] then [] else Tried(items[0]) + TriedAll(items[1..])
  }

  lemma {:induction false} TriedIff(x: Item, y: Item)
    ensures y in Tried(x) <==> LeadsTo(x, y)
    decreases x.node, 1
  {
    if x.node.Dir? && x.node.creates {
      TriedEntriesIff(x, 0, y);
      assert x.node.entries[0..] == x.node.entries;
    }
    if y != x && LeadsTo(x, y) {
      var i: nat :| Opens(x, i) && LeadsTo(ChildAt(x, i), y);
      assert LeadsThrough(x, i, y);
    }
  }

  ghost predicate LeadsThrough(x: Item, i: nat, y: Item) {
    Opens(x, i) && LeadsTo(ChildAt(x, i), y)
  }

  lemma {:induction false} TriedEntriesIff(x: Item, k: nat, y: Item)
    requires x.node.Dir? && x.node.creates && k <= |x.node.entries|
    ensures y in TriedEntries(x.path, x.node.entries[k..]) <==> exists i: nat :: k <= i && LeadsThrough(x, i, y)
    decreases x.node, 0, |x.node.entries| - k
  {
    var entries := x.node.entries;
    if k < |entries| {
      assert entries[k..][0] == entries[k] && entries[k..][1..] == entries[k + 1..];
      TriedEntriesIff(x, k + 1, y);
      assert LeadsThrough(x, k, y) <==> entries[k].name != x.path && LeadsTo(ChildAt(x, k), y);
      if entries[k].name != x.path {
        TriedIff(ChildAt(x, k), y);
      }
    }
  }

  /** The nodes in the order are exactly the nodes that are tried. */
  lemma {:induction false} TriedAllIff(items: seq<Item>, y: Item)
    ensures y in TriedAll(items) <==> IsTried(items, y)
  {
    if items != [] {
      TriedIff(items[0], y);
      TriedAllIff(items[1..], y);
      assert forall i :: 0 <= i < |items[1..]| ==> items[1..][i] == items[i + 1];
      if exists i :: 0 < i < |items| && LeadsTo(items[i], y) {
        var i :| 0 < i < |items| && LeadsTo(items[i], y);
        assert LeadsTo(items[1..][i - 1], y);
      }
    }
  }

  // ---------------------------------------------------------------------
  // The results
  // ---------------------------------------------------------------------

  /** Source path and bytes of the results that are no failures, in order. */
  function Successes(rs: seq<Result>): seq<(string, nat)> {
    if rs == [] then []
    else
      var last := rs[|rs| - 1];
      Successes(rs[..|rs| - 1]) + if last.failed then [] else [(last.source, last.bytes)]
  }

  /** Source paths of the failed results, in order. */
  function Failures(rs: seq<Result>): seq<string> {
    if rs == [] then []
    else
      var last := rs[|rs| - 1];
      Failures(rs[..|rs| - 1]) + if last.failed then [last.source] else []
  }

  /** Path and size of the nodes that arrive. */
  function Arrived(xs: seq<Item>): seq<(string, nat)> {
    if xs == [] then []
    else
      var last := xs[|xs| - 1];
      Arrived(xs[..|xs| - 1]) + if Arrives(last.node) then [(last.path, SizeOf(last.node))] else []
  }

  /** Paths of the nodes with which something goes wrong. */
  function Wrong(xs: seq<Item>): seq<string> {
    if xs == [] then []
    else
      var last := xs[|xs| - 1];
      Wrong(xs[..|xs| - 1]) + if GoesWrong(last.node) then [last.path] else []
  }

  lemma {:induction false} ReportsConcat(a: seq<Result>, b: seq<Result>)
    ensures Successes(a + b) == Successes(a) + Successes(b)
    ensures Failures(a + b) == Failures(a) + Failures(b)
    decreases |b|
  {
    if b == [] {
      assert a + b == a;
    } else {
      var n := |b| - 1;
      assert (a + b)[..|a + b| - 1] == a + b[..n];
      ReportsConcat(a, b[..n]);
    }
  }

  lemma {:induction false} NodesConcat(a: seq<Item>, b: seq<Item>)
    ensures Arrived(a + b) == Arrived(a) + Arrived(b)
    ensures Wrong(a + b) == Wrong(a) + Wrong(b)
    decreases |b|
  {
    if b == [] {
      assert a + b == a;
    } else {
      var n := |b| - 1;
      assert (a + b)[..|a + b| - 1] == a + b[..n];
      NodesConcat(a, b[..n]);
    }
  }

  lemma OneResult(r: Result)
    ensures Successes([r]) == if r.failed then [] else [(r.source, r.bytes)]
    ensures Failures([r]) == if r.failed then [r.source] else []
  {
    assert [r][..0] == [];
  }

  lemma OneNode(x: Item)
    ensures Arrived([x]) == if Arrives(x.node) then [(x.path, SizeOf(x.node))] else []
    ensures Wrong([x]) == if GoesWrong(x.node) then [x.path] else []
  {
    assert [x][..0] == [];
  }

  lemma {:induction false} NodeReports(path: string, node: Node)
    ensures Successes(StreamNode(path, node)) == Arrived(Tried(Item(path, node)))
    ensures Failures(StreamNode(path, node)) == Wrong(Tried(Item(path, node)))
    decreases node, 1
  {
    var x := Item(path, node);
    OneNode(x);
    OneResult(Result(path, 0, false));
    OneResult(Result(path, 0, true));
    match node
    case File(_, size, upload) =>
      OneResult(Result(path, size, false));
    case Dir(_, entries, creates) =>
      if creates {
        EntriesReports(path, entries);
        ReportsConcat([Result(path, 0, false)], StreamEntries(path, entries));
        NodesConcat([x], TriedEntries(path, entries));
      }
    case UnreadableDir(_, _) =>
      assert [Result(path, 0, false), Result(path, 0, true)] == [Result(path, 0, false)] + [Result(path, 0, true)];
      ReportsConcat([Result(path, 0, false)], [Result(path, 0, true)]);
    case Missing(_) =>
  }

  lemma {:induction false} EntriesReports(dir: string, entries: seq<Node>)
    ensures Successes(StreamEntries(dir, entries)) == Arrived(TriedEntries(dir, entries))
    ensures Failures(StreamEntries(dir, entries)) == Wrong(TriedEntries(dir, entries))
    decreases entries, 0
  {
    if entries != [] {
      var path := dir + "/" + entries[0].name;
      EntriesReports(dir, entries[1..]);
      NodeReports(path, entries[0]);
      if entries[0].name != dir {
        ReportsConcat(StreamNode(path, entries[0]), StreamEntries(dir, entries[1..]));
        NodesConcat(Tried(Item(path, entries[0])), TriedEntries(dir, entries[1..]));
      } else {
        assert StreamEntries(dir, entries) == StreamEntries(dir, entries[1..]);
        assert TriedEntries(dir, entries) == TriedEntries(dir, entries[1..]);
      }
    }
  }

  /**
   * The results without an error are exactly the files that upload, with their
   * sizes, and the folders that are created; those with an error are exactly
   * the tried nodes that did not arrive and the folders that could not be
   * read; each under its own path and in the order in which they are tried.
   */
  lemma {:induction false} ResultsReportTheTree(items: seq<Item>)
    ensures Successes(StreamAll(items)) == Arrived(TriedAll(items))
    ensures Failures(StreamAll(items)) == Wrong(TriedAll(items))
  {
    if items != [] {
      NodeReports(items[0].path, items[0].node);
      ResultsReportTheTree(items[1..]);
      ReportsConcat(StreamNode(items[0].path, items[0].node), StreamAll(items[1..]));
      NodesConcat(Tried(items[0]), TriedAll(items[1..]));
    }
  }

  lemma {:induction false} ArrivedIff(xs: seq<Item>, path: string, size: nat)
    ensures (path, size) in Arrived(xs) <==>
      exists y :: y in xs && Arrives(y.node) && y.path == path && SizeOf(y.node) == size
    ensures path in Wrong(xs) <==> exists y :: y in xs && GoesWrong(y.node) && y.path == path
  {
    if xs != [] {
      var n := |xs| - 1;
      ArrivedIff(xs[..n], path, size);
      assert forall y :: y in xs <==> y in xs[..n] || y == xs[n];
    }
  }

  lemma {:induction false} ReportedIff(rs: seq<Result>, path: string, bytes: nat)
    ensures (path, bytes) in Successes(rs) <==> Result(path, bytes, false) in rs
    ensures path in Failures(rs) <==> exists n :: Result(path, n, true) in rs
  {
    if rs != [] {
      var n := |rs| - 1;
      ReportedIff(rs[..n], path, bytes);
      assert forall r :: r in rs <==> r in rs[..n] || r == rs[n];
    }
  }

  /** A success is reported exactly for a tried node that arrives, and a failure for one that goes wrong. */
  lemma ResultIff(items: seq<Item>, path: string, bytes: nat)
    ensures Result(path, bytes, false) in StreamAll(items) <==>
      exists y :: IsTried(items, y) && Arrives(y.node) && y.path == path && SizeOf(y.node) == bytes
    ensures (exists n :: Result(path, n, true) in StreamAll(items)) <==>
      exists y :: IsTried(items, y) && GoesWrong(y.node) && y.path == path
  {
    ResultsReportTheTree(items);
    ReportedIff(StreamAll(items), path, bytes);
    ArrivedIff(TriedAll(items), path, bytes);
    forall y ensures y in TriedAll(items) <==> IsTried(items, y) {
      TriedAllIff(items, y);
    }
  }

  // ---------------------------------------------------------------------
  // The messages
  // ---------------------------------------------------------------------

  /** The source paths of the messages with, or without, an error. */
  function Messages(stream: seq<ProgressStream.Response>, failed: bool): seq<string> {
    if stream == [] then []
    else
      var last := stream[|stream| - 1];
      Messages(stream[..|stream| - 1], failed) + if last.failed == failed then [last.source] else []
  }

  function Firsts(pairs: seq<(string, nat)>): seq<string> {
    if pairs == [] then [] else Firsts(pairs[..|pairs| - 1]) + [pairs[|pairs| - 1].0]
  }

  function Sum(pairs: seq<(string, nat)>): nat {
    if pairs == [] then 0 else Sum(pairs[..|pairs| - 1]) + pairs[|pairs| - 1].1
  }

  lemma {:induction false} StreamReports(rs: seq<Result>, totals: Totals)
    ensures Messages(ProgressStream.StreamOf(rs, totals), false) == Firsts(Successes(rs))
    ensures Messages(ProgressStream.StreamOf(rs, totals), true) == Failures(rs)
    ensures ProgressStream.GoodBytes(rs) == Sum(Successes(rs))
  {
    if rs != [] {
      var n := |rs| - 1;
      var stream := ProgressStream.StreamOf(rs, totals);
      StreamReports(rs[..n], totals);
      assert stream[..|stream| - 1] == ProgressStream.StreamOf(rs[..n], totals);
      if rs[n].failed {
        assert Successes(rs) == Successes(rs[..n]);
      } else {
        var pairs := Successes(rs[..n]) + [(rs[n].source, rs[n].bytes)];
        assert pairs == Successes(rs) && pairs[..|pairs| - 1] == Successes(rs[..n]);
      }
    }
  }

  /** Each message counts the bytes of the results without an error up to its own. */
  lemma {:induction false} BytesSoFar(rs: seq<Result>, totals: Totals, j: nat)
    requires j < |rs|
    ensures ProgressStream.StreamOf(rs, totals)[j].completedBytes == Sum(Successes(rs[..j + 1]))
  {
    var n := |rs| - 1;
    if j < n {
      BytesSoFar(rs[..n], totals, j);
      assert rs[..n][..j + 1] == rs[..j + 1];
    } else {
      assert rs[..j + 1] == rs;
      StreamReports(rs, totals);
    }
  }

  /**
   * What the client sees of an upload it did not cancel: a message without an
   * error for exactly the nodes that arrive, one with an error for exactly
   * those with which something went wrong, each under its path and in order,
   * at each message the bytes that had arrived, and in the end all of them.
   */
  lemma ClientSeesTheTree(items: seq<Item>, totals: Totals, run: seq<ProgressStream.State>,
                          acts: seq<ProgressStream.Action>)
    requires ProgressStream.IsRun(StreamAll(items), totals, run, acts)
    requires run[|acts|].handler.Returned? && !run[|acts|].cancelled
    ensures var s := run[|acts|];
      && Messages(s.stream, false) == Firsts(Arrived(TriedAll(items)))
      && Messages(s.stream, true) == Wrong(TriedAll(items))
      && s.completedBytes == Sum(Arrived(TriedAll(items)))
      && |s.stream| == |StreamAll(items)|
      && forall j :: 0 <= j < |s.stream| ==>
           s.stream[j].completedBytes == Sum(Successes(StreamAll(items)[..j + 1]))
  {
    ResultsReportTheTree(items);
    ProgressStream.UncancelledStream(StreamAll(items), totals, run, acts);
    StreamReports(StreamAll(items), totals);
    forall j: nat | j < |run[|acts|].stream|
      ensures run[|acts|].stream[j].completedBytes == Sum(Successes(StreamAll(items)[..j + 1]))
    {
      BytesSoFar(StreamAll(items), totals, j);
    }
  }

  lemma {:induction false} PickedFrom(rs: seq<Result>, fates: seq<bool>, r: Result)
    requires |fates| <= |rs| && r in ProgressStream.Picked(rs, fates)
    ensures r in rs
  {
    var n := |fates| - 1;
    if !(fates[n] && r == rs[n]) {
      PickedFrom(rs, fates[..n], r);
    }
  }

  lemma {:induction false} MessageOf(rs: seq<Result>, totals: Totals, j: nat)
    requires j < |rs|
    ensures var m := ProgressStream.StreamOf(rs, totals)[j];
      m.source == rs[j].source && m.failed == rs[j].failed && m.totals == totals && m.completedFiles == j + 1
  {
    if j < |rs| - 1 {
      MessageOf(rs[..|rs| - 1], totals, j);
    }
  }

  /** At any moment of any run, cancelled or not, a message tells the truth about a node that was tried. */
  lemma MessagesTellTruth(items: seq<Item>, totals: Totals, run: seq<ProgressStream.State>,
                          acts: seq<ProgressStream.Action>, k: nat, j: nat) returns (y: Item)
    requires ProgressStream.IsRun(StreamAll(items), totals, run, acts) && k <= |acts| && j < |run[k].stream|
    ensures IsTried(items, y) && y.path == run[k].stream[j].source
    ensures if run[k].stream[j].failed then GoesWrong(y.node) else Arrives(y.node)
  {
    var s, results := run[k], StreamAll(items);
    ProgressStream.RunInv(results, totals, run, acts, k);
    MessageOf(s.pushed, totals, j);
    var r := s.pushed[j];
    PickedFrom(results, s.fates, r);
    ResultIff(items, r.source, r.bytes);
    if r.failed {
      assert Result(r.source, r.bytes, true) in results;
      y :| IsTried(items, y) && GoesWrong(y.node) && y.path == r.source;
    } else {
      y :| IsTried(items, y) && Arrives(y.node) && y.path == r.source && SizeOf(y.node) == r.bytes;
    }
  }
}
