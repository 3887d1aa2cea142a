/** Listing a bucket directory (listDirAtPath), deep for ListDirs and one level for ListDir. */
module Listing {
  import opened Wrappers
  import opened Paths
  import opened Buckets
  import opened AddItems

  /** The order in which a directory is listed: some fixed order of the names it holds. */
  type Order = set<string> -> seq<string>

  ghost predicate IsOrder(order: Order) {
    forall s :: Distinct(order(s)) && forall x :: x in order(s) <==> x in s
  }

  predicate IsMetaFileName(name: string) {
    name in {".textileseed", ".textile", ".DS_Store", ".Trashes", ".localized"}
  }

  /** An entry of a listing: its own path below the bucket root, and the path that is reported for it. */
  datatype Info = Info(names: seq<string>, shown: seq<string>, isDir: bool, size: nat)

  // ---------------------------------------------------------------------
  // The path a listing reports
  // ---------------------------------------------------------------------

  predicate IsIpfsPrefix(name: string) {
    name == "ipfs" || name == "ipns"
  }

  /**
   * The path after the pattern that strips "/ipfs/<cid>".  The item's own path
   * has lost that prefix already and does not start with a slash, so the
   * pattern can only match from the second name on.
   */
  function Shown(names: seq<string>): seq<string> {
    ShownFrom(names, 1)
  }

  function ShownFrom(names: seq<string>, k: nat): seq<string>
    decreases |names| - k
  {
    if k + 2 >= |names| then names
    else if IsIpfsPrefix(names[k]) then names[k + 2..]
    else ShownFrom(names, k + 1)
  }

  /** No folder at least two levels above the item, other than at the top of the bucket, is named ipfs or ipns. */
  predicate NoPrefixInside(names: seq<string>) {
    forall i :: 1 <= i && i + 2 < |names| ==> !IsIpfsPrefix(names[i])
  }

  lemma {:induction false} ShownFromIff(names: seq<string>, k: nat)
    ensures ShownFrom(names, k) == names <==> forall i :: k <= i && i + 2 < |names| ==> !IsIpfsPrefix(names[i])
    decreases |names| - k
  {
    if k + 2 < |names| {
      if IsIpfsPrefix(names[k]) {
        assert |ShownFrom(names, k)| < |names|;
      } else {
        ShownFromIff(names, k + 1);
      }
    }
  }

  /** A listing reports an item's own path exactly when there is no such folder. */
  lemma ShownIffNoPrefix(names: seq<string>)
    ensures Shown(names) == names <==> NoPrefixInside(names)
  {
    ShownFromIff(names, 1);
  }

  lemma {:induction false} ShownFromIs(names: seq<string>, k: nat, i: nat)
    requires k <= i && i + 2 < |names| && IsIpfsPrefix(names[i]) && forall j :: k <= j < i ==> !IsIpfsPrefix(names[j])
    ensures ShownFrom(names, k) == names[i + 2..]
    decreases i - k
  {
    if k < i {
      ShownFromIs(names, k + 1, i);
    }
  }

  /** Otherwise it reports what comes two names after the first such folder. */
  lemma ShownIsCut(names: seq<string>, i: nat)
    requires 1 <= i && i + 2 < |names| && IsIpfsPrefix(names[i]) && forall j :: 1 <= j < i ==> !IsIpfsPrefix(names[j])
    ensures Shown(names) == names[i + 2..]
  {
    ShownFromIs(names, 1, i);
  }

  function InfoAt(names: seq<string>, isDir: bool, size: nat): Info {
    Info(names, Shown(names), isDir, size)
  }

  function InfoOf(e: Entry, names: seq<string>): Info {
    InfoAt(names, e.Folder?, if e.Blob? then e.size else 0)
  }

  function ListNames(e: Entry, keys: seq<string>, at: seq<string>, deep: bool, order: Order): seq<Info>
    requires IsOrder(order) && forall n :: n in keys ==> n in Kids(e)
    decreases e, |keys|
  {
    if keys == [] then []
    else
      var rest := ListNames(e, keys[1..], at, deep, order);
      if IsMetaFileName(keys[0]) then rest
      else
        var kid := Kids(e)[keys[0]];
        var here := at + [keys[0]];
        [InfoOf(kid, here)] + (if deep then ListFolder(kid, here, deep, order) else []) + rest
  }

  function ListFolder(e: Entry, at: seq<string>, deep: bool, order: Order): seq<Info>
    requires IsOrder(order)
    decreases e, 1 + |order(Kids(e).Keys)|
  {
    ListNames(e, order(Kids(e).Keys), at, deep, order)
  }

  /** Names in the bucket are nonempty and hold no slash; what lies under meta names does not matter. */
  ghost predicate PlainNames(e: Entry) {
    e.Folder? ==> forall n :: n in e.kids && !IsMetaFileName(n) ==> '/' !in n && n != [] && PlainNames(e.kids[n])
  }

  lemma {:induction false} AtSnoc(b: Entry, names: seq<string>, name: string)
    requires At(b, names).Some? && name in Kids(At(b, names).value)
    ensures At(b, names + [name]) == Some(Kids(At(b, names).value)[name])
  {
    var path := names + [name];
    if names == [] {
      assert path[1..] == [];
    } else {
      assert path[0] == names[0] && path[1..] == names[1..] + [name];
      AtSnoc(Kids(b)[names[0]], names[1..], name);
    }
  }

  /** What one name contributes to a listing. */
  function ListOne(e: Entry, n: string, at: seq<string>, deep: bool, order: Order): seq<Info>
    requires IsOrder(order) && n in Kids(e)
  {
    if IsMetaFileName(n) then []
    else
      [InfoOf(Kids(e)[n], at + [n])] + (if deep then ListFolder(Kids(e)[n], at + [n], deep, order) else [])
  }

  lemma ListNamesSnoc(e: Entry, keys: seq<string>, i: nat, at: seq<string>, deep: bool, order: Order)
    requires IsOrder(order) && i < |keys| && forall n :: n in keys ==> n in Kids(e)
    ensures ListNames(e, keys[..i + 1], at, deep, order) ==
      ListNames(e, keys[..i], at, deep, order) + ListOne(e, keys[i], at, deep, order)
  {
    assert keys[..i + 1] == keys[..i] + [keys[i]];
    ListNamesConcat(e, keys[..i], [keys[i]], at, deep, order);
    assert [keys[i]][1..] == [];
    assert ListNames(e, [keys[i]], at, deep, order) == ListOne(e, keys[i], at, deep, order);
  }

  /** A file lists as an empty directory. */
  lemma ListBlob(e: Entry, at: seq<string>, deep: bool, order: Order)
    requires IsOrder(order) && e.Blob?
    ensures ListFolder(e, at, deep, order) == []
  {
    var keys := order(Kids(e).Keys);
    assert forall i :: 0 <= i < |keys| ==> keys[i] in Kids(e);
  }

  lemma {:induction false} ListNamesConcat(e: Entry, xs: seq<string>, ys: seq<string>, at: seq<string>,
                                           deep: bool, order: Order)
    requires IsOrder(order) && forall n :: n in xs + ys ==> n in Kids(e)
    requires forall n :: n in xs || n in ys ==> n in Kids(e)
    ensures ListNames(e, xs + ys, at, deep, order) ==
      ListNames(e, xs, at, deep, order) + ListNames(e, ys, at, deep, order)
    decreases |xs|
  {
    if xs == [] {
      assert xs + ys == ys;
    } else {
      assert (xs + ys)[1..] == xs[1..] + ys;
      ListNamesConcat(e, xs[1..], ys, at, deep, order);
    }
  }

  ghost function EntryAt(b: Entry, path: string): Entry {
    var found := At(b, Components(path));
    if found.Some? then found.value else Blob(0)
  }

  /** The recursive listing, following path strings; the directory at the path does not exist when there is none. */
  method ListDirAtPath(b: Entry, path: string, deep: bool, order: Order) returns (r: Option<seq<Info>>)
    requires IsOrder(order) && PlainNames(EntryAt(b, path))
    ensures r.Some? <==> At(b, Components(path)).Some?
    ensures r.Some? ==> r.value == ListFolder(EntryAt(b, path), Components(path), deep, order)
    decreases EntryAt(b, path), 1
  {
    var found := At(b, Components(path));
    if found.None? { return None; }
    var keys := order(Kids(found.value).Keys);
    var entries: seq<Info> := [];
    var i := 0;
    assert keys[..0] == [];
    while i < |keys|
      invariant 0 <= i <= |keys|
      invariant entries == ListNames(found.value, keys[..i], Components(path), deep, order)
    {
      ListNamesSnoc(found.value, keys, i, Components(path), deep, order);
      assert keys[i] in Kids(found.value);
      var more := ListItem(b, path, keys[i], deep, order);
      entries := entries + more;
      i := i + 1;
    }
    assert keys[..i] == keys;
    r := Some(entries);
  }

  /** The body of the loop over a directory's items. */
  method ListItem(b: Entry, path: string, name: string, deep: bool, order: Order) returns (r: seq<Info>)
    requires IsOrder(order) && PlainNames(EntryAt(b, path)) && At(b, Components(path)).Some?
    requires name in Kids(EntryAt(b, path))
    ensures r == ListOne(EntryAt(b, path), name, Components(path), deep, order)
    decreases EntryAt(b, path), 0
  {
    if IsMetaFileName(name) { return []; }
    var item := Kids(At(b, Components(path)).value)[name];
    var own := Components(path) + [name];
    r := [Info(own, Shown(own), item.Folder?, if item.Blob? then item.size else 0)];
    if item.Folder? && deep {
      SubPath(b, path, name);
      var sub := ListDirAtPath(b, path + "/" + name, deep, order);
      r := r + sub.value;
    } else if deep {
      ListBlob(item, Components(path) + [name], deep, order);
    }
  }

  /** The path string of an item leads to the item. */
  lemma SubPath(b: Entry, path: string, name: string)
    requires At(b, Components(path)).Some? && PlainNames(EntryAt(b, path))
    requires name in Kids(EntryAt(b, path)) && !IsMetaFileName(name)
    ensures Components(path + "/" + name) == Components(path) + [name]
    ensures EntryAt(b, path + "/" + name) == Kids(EntryAt(b, path))[name]
    ensures At(b, Components(path + "/" + name)).Some?
    ensures PlainNames(EntryAt(b, path + "/" + name))
  {
    ComponentsOfChild(path, name);
    AtSnoc(b, Components(path), name);
  }

  // ---------------------------------------------------------------------
  // What is listed, and that it is listed once
  // ---------------------------------------------------------------------

  /** x describes an entry below e, reached through names that are not meta names. */
  ghost predicate Listed(e: Entry, at: seq<string>, x: Info)
    decreases e, 0
  {
    e.Folder? && exists n :: n in e.kids && ListedUnder(e.kids[n], at, n, x)
  }

  ghost predicate ListedUnder(kid: Entry, at: seq<string>, n: string, x: Info)
    decreases kid, 1
  {
    !IsMetaFileName(n) && (x == InfoOf(kid, at + [n]) || Listed(kid, at + [n], x))
  }

  lemma {:induction false} ListNamesListed(e: Entry, keys: seq<string>, at: seq<string>, order: Order, x: Info)
    requires IsOrder(order) && forall n :: n in keys ==> n in Kids(e)
    ensures x in ListNames(e, keys, at, true, order) <==> exists n :: n in keys && ListedUnder(Kids(e)[n], at, n, x)
    decreases e, |keys|
  {
    if keys != [] {
      ListNamesListed(e, keys[1..], at, order, x);
      var kid, here := Kids(e)[keys[0]], at + [keys[0]];
      ListFolderListed(kid, here, order, x);
      assert x in ListNames(e, keys, at, true, order) <==>
        ListedUnder(kid, at, keys[0], x) || x in ListNames(e, keys[1..], at, true, order);
      assert keys == [keys[0]] + keys[1..];
    }
  }

  /** A deep listing holds exactly the entries below the directory, whatever the order. */
  lemma {:induction false} ListFolderListed(e: Entry, at: seq<string>, order: Order, x: Info)
    requires IsOrder(order)
    ensures x in ListFolder(e, at, true, order) <==> Listed(e, at, x)
    decreases e, 1 + |order(Kids(e).Keys)|
  {
    var keys := order(Kids(e).Keys);
    ListNamesListed(e, keys, at, order, x);
    assert forall n :: n in keys <==> n in Kids(e);
  }

  /** The reported path of every entry is its own after the pattern. */
  lemma {:induction false} ListedShown(e: Entry, at: seq<string>, x: Info)
    requires Listed(e, at, x)
    ensures x.shown == Shown(x.names)
    decreases e
  {
    var n :| n in e.kids && ListedUnder(e.kids[n], at, n, x);
    if Listed(e.kids[n], at + [n], x) {
      ListedShown(e.kids[n], at + [n], x);
    }
  }

  /** Every listed path extends the directory's by one of its names. */
  lemma {:induction false} ListedBelow(e: Entry, keys: seq<string>, at: seq<string>, order: Order, x: Info)
    requires IsOrder(order) && forall n :: n in keys ==> n in Kids(e)
    requires x in ListNames(e, keys, at, true, order)
    ensures |x.names| > |at| && x.names[..|at|] == at && x.names[|at|] in keys
    decreases e, |keys|
  {
    var n, here := keys[0], at + [keys[0]];
    if x in ListNames(e, keys[1..], at, true, order) {
      ListedBelow(e, keys[1..], at, order, x);
    } else if x != InfoOf(Kids(e)[n], here) {
      ListedBelow(Kids(e)[n], order(Kids(Kids(e)[n]).Keys), here, order, x);
      assert x.names[..|at|] == here[..|at|] && x.names[|at|] == here[|at|];
    }
  }

  lemma DistinctConcat<T>(a: seq<T>, b: seq<T>)
    requires Distinct(a) && Distinct(b) && forall x :: x in a ==> x !in b
    ensures Distinct(a + b)
  {
    forall i, j | 0 <= i < j < |a + b| ensures (a + b)[i] != (a + b)[j] {
      if i < |a| <= j {
        assert a[i] in a && b[j - |a|] in b;
      }
    }
  }

  lemma {:induction false} ListNamesDistinct(e: Entry, keys: seq<string>, at: seq<string>, order: Order)
    requires IsOrder(order) && Distinct(keys) && forall n :: n in keys ==> n in Kids(e)
    ensures Distinct(ListNames(e, keys, at, true, order))
    decreases e, |keys|
  {
    if keys != [] {
      var n, here := keys[0], at + [keys[0]];
      var rest := ListNames(e, keys[1..], at, true, order);
      ListNamesDistinct(e, keys[1..], at, order);
      if !IsMetaFileName(n) {
        var info, sub := InfoOf(Kids(e)[n], here), ListFolder(Kids(e)[n], here, true, order);
        var subKeys := order(Kids(Kids(e)[n]).Keys);
        ListNamesDistinct(Kids(e)[n], subKeys, here, order);
        forall x | x in sub ensures x != info && |x.names| > |at| && x.names[|at|] == n {
          ListedBelow(Kids(e)[n], subKeys, here, order, x);
          assert x.names[|at|] == here[|at|];
        }
        forall x | x in rest ensures |x.names| > |at| && x.names[|at|] != n {
          ListedBelow(e, keys[1..], at, order, x);
        }
        DistinctConcat([info], sub);
        DistinctConcat([info] + sub, rest);
      }
    }
  }

  /** No entry is listed twice. */
  lemma ListFolderDistinct(e: Entry, at: seq<string>, order: Order)
    requires IsOrder(order)
    ensures Distinct(ListFolder(e, at, true, order))
  {
    ListNamesDistinct(e, order(Kids(e).Keys), at, order);
  }

  // ---------------------------------------------------------------------
  // Folders come before what they hold
  // ---------------------------------------------------------------------

  /** Entry j is the folder of entry i, and everything listed between them lies below that folder. */
  predicate FolderBefore(l: seq<Info>, j: nat, i: nat) {
    && j < i < |l|
    && l[j].isDir && |l[i].names| > 0 && l[j].names == l[i].names[..|l[i].names| - 1]
    && forall k :: j < k <= i ==> l[j].names < l[k].names
  }

  /** A preorder of the entries below a directory whose path has the given number of names. */
  ghost predicate Preorder(l: seq<Info>, depth: nat) {
    forall i {:trigger HasFolderBefore(l, i)} :: 0 <= i < |l| && |l[i].names| > depth + 1 ==> HasFolderBefore(l, i)
  }

  ghost predicate HasFolderBefore(l: seq<Info>, i: nat) {
    exists j: nat :: FolderBefore(l, j, i)
  }

  lemma FolderBeforeLeft(a: seq<Info>, b: seq<Info>, i: nat)
    requires i < |a| && HasFolderBefore(a, i)
    ensures HasFolderBefore(a + b, i)
  {
    var j: nat :| FolderBefore(a, j, i);
    assert FolderBefore(a + b, j, i);
  }

  lemma FolderBeforeRight(a: seq<Info>, b: seq<Info>, i: nat)
    requires i < |b| && HasFolderBefore(b, i)
    ensures HasFolderBefore(a + b, |a| + i)
  {
    var j: nat :| FolderBefore(b, j, i);
    forall k | |a| + j < k <= |a| + i ensures b[j].names < (a + b)[k].names {
      assert (a + b)[k] == b[k - |a|];
    }
    assert FolderBefore(a + b, |a| + j, |a| + i);
  }

  lemma FolderBeforeFirst(info: Info, sub: seq<Info>, i: nat)
    requires 0 < i <= |sub| && info.isDir && |sub[i - 1].names| == |info.names| + 1
    requires forall x :: x in sub ==> info.names < x.names
    ensures HasFolderBefore([info] + sub, i)
  {
    var all := [info] + sub;
    forall k | 0 < k <= i ensures info.names < all[k].names {
      assert all[k] == sub[k - 1] && sub[k - 1] in sub;
    }
    assert all[i].names[..|info.names|] == info.names;
    assert FolderBefore(all, 0, i);
  }

  /** A folder followed by a preorder of what is below it and a preorder of what comes after. */
  lemma PreorderNode(info: Info, sub: seq<Info>, rest: seq<Info>, depth: nat)
    requires Preorder(sub, depth + 1) && Preorder(rest, depth)
    requires |info.names| == depth + 1 && (sub != [] ==> info.isDir)
    requires forall x :: x in sub ==> info.names < x.names
    ensures Preorder([info] + sub + rest, depth)
  {
    var first := [info] + sub;
    forall i | 0 <= i < |first| && |first[i].names| > depth + 1 ensures HasFolderBefore(first, i) {
      if |sub[i - 1].names| > depth + 2 {
        assert HasFolderBefore(sub, i - 1);
        FolderBeforeRight([info], sub, i - 1);
      } else {
        FolderBeforeFirst(info, sub, i);
      }
    }
    PreorderConcat(first, rest, depth);
  }

  lemma PreorderConcat(a: seq<Info>, b: seq<Info>, depth: nat)
    requires Preorder(a, depth) && Preorder(b, depth)
    ensures Preorder(a + b, depth)
  {
    forall i | 0 <= i < |a + b| && |(a + b)[i].names| > depth + 1 ensures HasFolderBefore(a + b, i) {
      if i < |a| {
        assert HasFolderBefore(a, i);
        FolderBeforeLeft(a, b, i);
      } else {
        assert HasFolderBefore(b, i - |a|);
        FolderBeforeRight(a, b, i - |a|);
      }
    }
  }

  lemma {:induction false} ListNamesPreorder(e: Entry, keys: seq<string>, at: seq<string>, order: Order)
    requires IsOrder(order) && forall n :: n in keys ==> n in Kids(e)
    ensures Preorder(ListNames(e, keys, at, true, order), |at|)
    decreases e, |keys|
  {
    if keys != [] {
      ListNamesPreorder(e, keys[1..], at, order);
      if !IsMetaFileName(keys[0]) {
        var kid, here := Kids(e)[keys[0]], at + [keys[0]];
        var subKeys := order(Kids(kid).Keys);
        ListNamesPreorder(kid, subKeys, here, order);
        var sub := ListFolder(kid, here, true, order);
        if kid.Blob? {
          ListBlob(kid, here, true, order);
        }
        forall x | x in sub ensures here < x.names {
          ListedBelow(kid, subKeys, here, order, x);
        }
        PreorderNode(InfoOf(kid, here), sub, ListNames(e, keys[1..], at, true, order), |at|);
      }
    }
  }

  /** A deep listing gives every folder directly before everything it holds. */
  lemma ListFolderPreorder(e: Entry, at: seq<string>, order: Order)
    requires IsOrder(order)
    ensures Preorder(ListFolder(e, at, true, order), |at|)
  {
    ListNamesPreorder(e, order(Kids(e).Keys), at, order);
  }

  // ---------------------------------------------------------------------
  // ListDir is the first level of ListDirs
  // ---------------------------------------------------------------------

  function AtDepth(infos: seq<Info>, depth: nat): seq<Info> {
    if infos == [] then []
    else (if |infos[0].names| == depth then [infos[0]] else []) + AtDepth(infos[1..], depth)
  }

  lemma {:induction false} AtDepthConcat(a: seq<Info>, b: seq<Info>, depth: nat)
    ensures AtDepth(a + b, depth) == AtDepth(a, depth) + AtDepth(b, depth)
  {
    if a == [] {
      assert a + b == b;
    } else {
      assert (a + b)[0] == a[0] && (a + b)[1..] == a[1..] + b;
      AtDepthConcat(a[1..], b, depth);
      var first := if |a[0].names| == depth then [a[0]] else [];
      assert first + (AtDepth(a[1..], depth) + AtDepth(b, depth)) == first + AtDepth(a[1..], depth) + AtDepth(b, depth);
    }
  }

  lemma {:induction false} AtDepthNone(infos: seq<Info>, depth: nat)
    requires forall x :: x in infos ==> |x.names| != depth
    ensures AtDepth(infos, depth) == []
  {
    if infos != [] {
      AtDepthNone(infos[1..], depth);
    }
  }

  lemma {:induction false} ListNamesShallow(e: Entry, keys: seq<string>, at: seq<string>, order: Order)
    requires IsOrder(order) && forall n :: n in keys ==> n in Kids(e)
    ensures ListNames(e, keys, at, false, order) == AtDepth(ListNames(e, keys, at, true, order), |at| + 1)
    decreases |keys|
  {
    if keys != [] {
      ListNamesShallow(e, keys[1..], at, order);
      if !IsMetaFileName(keys[0]) {
        var kid, here := Kids(e)[keys[0]], at + [keys[0]];
        var info, sub := InfoOf(kid, here), ListFolder(kid, here, true, order);
        forall x | x in sub ensures |x.names| != |at| + 1 {
          ListedBelow(kid, order(Kids(kid).Keys), here, order, x);
        }
        AtDepthNone(sub, |at| + 1);
        AtDepthConcat([info] + sub, ListNames(e, keys[1..], at, true, order), |at| + 1);
        AtDepthConcat([info], sub, |at| + 1);
      }
    }
  }

  /** ListDir gives, in the same order, the entries of ListDirs that lie directly in the directory. */
  lemma ListDirIsFirstLevel(e: Entry, at: seq<string>, order: Order)
    requires IsOrder(order)
    ensures ListFolder(e, at, false, order) == AtDepth(ListFolder(e, at, true, order), |at| + 1)
  {
    ListNamesShallow(e, order(Kids(e).Keys), at, order);
  }
}
