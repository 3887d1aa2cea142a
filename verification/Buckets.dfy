/** The content of a bucket: what pushes put there and what listings read. */
module Buckets {
  import opened Wrappers
  import opened Paths

  datatype Entry = Blob(size: nat) | Folder(kids: map<string, Entry>)

  datatype Push = Push(path: string, size: nat)

  const KEEP_NAME := ".keep"

  function Kids(e: Entry): map<string, Entry> {
    if e.Folder? then e.kids else map[]
  }

  function Kid(e: Entry, name: string): Entry {
    if name in Kids(e) then Kids(e)[name] else Folder(map[])
  }

  /** The entry at a path of names, if there is one. */
  function At(e: Entry, names: seq<string>): Option<Entry> {
    if names == [] then Some(e)
    else if names[0] in Kids(e) then At(Kids(e)[names[0]], names[1..])
    else None
  }

  /** Putting a blob at a path, with the folders on the way. */
  function Insert(e: Entry, names: seq<string>, size: nat): Entry
    requires names != []
    decreases |names|
  {
    if |names| == 1 then Folder(Kids(e)[names[0] := Blob(size)])
    else Folder(Kids(e)[names[0] := Insert(Kid(e, names[0]), names[1..], size)])
  }

  function ApplyPush(b: Entry, p: Push): Entry {
    if Components(p.path) == [] then b else Insert(b, Components(p.path), p.size)
  }

  function ApplyPushes(b: Entry, ps: seq<Push>): Entry
    decreases |ps|
  {
    if ps == [] then b else ApplyPushes(ApplyPush(b, ps[0]), ps[1..])
  }

  lemma {:induction false} ApplyPushesConcat(b: Entry, ps: seq<Push>, qs: seq<Push>)
    ensures ApplyPushes(b, ps + qs) == ApplyPushes(ApplyPushes(b, ps), qs)
    decreases |ps|
  {
    if ps == [] {
      assert ps + qs == qs;
    } else {
      assert (ps + qs)[1..] == ps[1..] + qs;
      ApplyPushesConcat(ApplyPush(b, ps[0]), ps[1..], qs);
    }
  }

  lemma ApplyFirst(b: Entry, p: Push, ps: seq<Push>)
    ensures ApplyPushes(b, [p]) == ApplyPush(b, p)
    ensures ApplyPushes(b, [p] + ps) == ApplyPushes(ApplyPush(b, p), ps)
  {
    assert [p][1..] == [] && ([p] + ps)[1..] == ps;
  }

  /** The bucket with the given entries added to the folder at a path. */
  function Graft(e: Entry, names: seq<string>, added: map<string, Entry>): Entry
    decreases |names|
  {
    if names == [] then Folder(Kids(e) + added)
    else Folder(Kids(e)[names[0] := Graft(Kid(e, names[0]), names[1..], added)])
  }

  /** The entries of the folder at a path; none when there is no folder. */
  function KidsAt(e: Entry, names: seq<string>): map<string, Entry> {
    if names == [] then Kids(e)
    else if names[0] in Kids(e) then KidsAt(Kids(e)[names[0]], names[1..])
    else map[]
  }

  lemma {:induction false} KidsAtAt(e: Entry, names: seq<string>)
    ensures KidsAt(e, names) == (if At(e, names).Some? then Kids(At(e, names).value) else map[])
  {
    if names != [] && names[0] in Kids(e) {
      KidsAtAt(Kids(e)[names[0]], names[1..]);
    }
  }

  lemma {:induction false} KidsAtEmpty(names: seq<string>)
    ensures KidsAt(Folder(map[]), names) == map[]
  {
  }

  /** What a graft leaves at its own path. */
  lemma {:induction false} AtGraft(e: Entry, names: seq<string>, added: map<string, Entry>)
    ensures At(Graft(e, names, added), names) == Some(Folder(KidsAt(e, names) + added))
    decreases |names|
  {
    if names != [] {
      AtGraft(Kid(e, names[0]), names[1..], added);
      if names[0] !in Kids(e) {
        KidsAtEmpty(names[1..]);
      }
    }
  }

  lemma {:induction false} GraftTwice(e: Entry, names: seq<string>, a: map<string, Entry>, b: map<string, Entry>)
    ensures Graft(Graft(e, names, a), names, b) == Graft(e, names, a + b)
    decreases |names|
  {
    if names == [] {
      assert Kids(e) + a + b == Kids(e) + (a + b);
    } else {
      GraftTwice(Kid(e, names[0]), names[1..], a, b);
      var k := Kids(e)[names[0] := Graft(Kid(e, names[0]), names[1..], a)];
      assert k[names[0] := Graft(Kid(e, names[0]), names[1..], a + b)]
          == Kids(e)[names[0] := Graft(Kid(e, names[0]), names[1..], a + b)];
    }
  }

  /** Inserting a blob is grafting it into the folder above it. */
  lemma {:induction false} InsertIsGraft(e: Entry, names: seq<string>, name: string, size: nat)
    ensures Insert(e, names + [name], size) == Graft(e, names, map[name := Blob(size)])
    decreases |names|
  {
    var path := names + [name];
    if names == [] {
      assert Kids(e)[name := Blob(size)] == Kids(e) + map[name := Blob(size)];
    } else {
      assert path[0] == names[0] && path[1..] == names[1..] + [name];
      InsertIsGraft(Kid(e, names[0]), names[1..], name, size);
    }
  }

  /** Grafting below a name that the folder does not have adds a folder of that name. */
  lemma {:induction false} GraftBelow(e: Entry, names: seq<string>, name: string, added: map<string, Entry>)
    requires name !in KidsAt(e, names)
    ensures Graft(e, names + [name], added) == Graft(e, names, map[name := Folder(added)])
    decreases |names|
  {
    var path := names + [name];
    if names == [] {
      assert path[1..] == [];
      assert map[] + added == added;
      assert Kids(e)[name := Folder(added)] == Kids(e) + map[name := Folder(added)];
    } else {
      assert path[0] == names[0] && path[1..] == names[1..] + [name];
      if names[0] !in Kids(e) {
        KidsAtEmpty(names[1..]);
      }
      GraftBelow(Kid(e, names[0]), names[1..], name, added);
    }
  }
}
