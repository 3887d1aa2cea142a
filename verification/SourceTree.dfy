/** The file trees that are counted and uploaded. */
module SourceTree {
  /** How the one upload attempted for a file ends; Unsized uploads the file but fails to size it. */
  datatype Upload = Uploads | Refused | Unsized

  /**
   * A node of a static source tree.  A run meets each node at most once, so
   * the outcome of the bucket call made for it is stored with the node.
   */
  datatype Node =
    | File(name: string, size: nat, upload: Upload)
    | Dir(name: string, entries: seq<Node>, creates: bool)
    | UnreadableDir(name: string, creates: bool)
    | Missing(name: string)

  datatype Totals = Totals(files: nat, bytes: nat)

  const NOTHING := Totals(0, 0)

  predicate IsSum(t: Totals, a: Totals, b: Totals) {
    t.files == a.files + b.files && t.bytes == a.bytes + b.bytes
  }

  function Count(n: Node): (t: Totals)
    ensures t.files >= 1
    decreases n, 1
  {
    match n
    case File(_, size, _) => Totals(1, size)
    case Dir(_, entries, _) =>
      var below := CountAll(entries);
      Totals(1 + below.files, below.bytes)
    case _ => Totals(1, 0)
  }

  function CountAll(ns: seq<Node>): (t: Totals)
    ensures t.files >= |ns|
    decreases ns, 0
  {
    if ns == [] then NOTHING
    else
      var first, rest := Count(ns[0]), CountAll(ns[1..]);
      Totals(first.files + rest.files, first.bytes + rest.bytes)
  }

  /** Some directory read or stat in the tree fails. */
  predicate Fails(n: Node) {
    match n
    case File(_, _, _) => false
    case Dir(_, entries, _) => exists i :: 0 <= i < |entries| && Fails(entries[i])
    case _ => true
  }

  predicate AnyFails(ns: seq<Node>) {
    exists i :: 0 <= i < |ns| && Fails(ns[i])
  }
}
