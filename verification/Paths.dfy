/** Slash-separated paths and the string functions the code applies to them. */
module Paths {
  /** strings.Split with a one-character separator. */
  function Split(s: string, sep: char): (parts: seq<string>)
    ensures |parts| >= 1
    ensures forall i :: 0 <= i < |parts| ==> sep !in parts[i]
  {
    if s == [] then [[]]
    else
      var rest := Split(s[1..], sep);
      if s[0] == sep then [[]] + rest else [[s[0]] + rest[0]] + rest[1..]
  }

  lemma {:induction false} SplitFree(s: string, sep: char)
    requires sep !in s
    ensures Split(s, sep) == [s]
  {
    if s != [] {
      SplitFree(s[1..], sep);
      assert [s[0]] + s[1..] == s;
    }
  }

  /** Appending a separator and a part without one appends that part. */
  lemma {:induction false} SplitSnoc(s: string, sep: char, part: string)
    requires sep !in part
    ensures Split(s + [sep] + part, sep) == Split(s, sep) + [part]
  {
    var whole := s + [sep] + part;
    if s == [] {
      assert whole[1..] == part;
      SplitFree(part, sep);
    } else {
      assert whole[1..] == s[1..] + [sep] + part;
      SplitSnoc(s[1..], sep, part);
    }
  }

  /** strings.TrimPrefix(path, "/") */
  function CleanBucketPath(path: string): string {
    if path != [] && path[0] == '/' then path[1..] else path
  }

  /** strings.TrimRight(path, "/") */
  function TrimRightSlashes(path: string): string {
    if path != [] && path[|path| - 1] == '/' then TrimRightSlashes(path[..|path| - 1]) else path
  }

  function NonEmpty(parts: seq<string>): seq<string> {
    if parts == [] then []
    else
      var n := |parts| - 1;
      NonEmpty(parts[..n]) + if parts[n] == "" then [] else [parts[n]]
  }

  /** The names along a bucket path; the empty path and the path "/" are the bucket root. */
  function Components(path: string): seq<string> {
    NonEmpty(Split(path, '/'))
  }

  /** The loop that encrypts a path part by part, without the encryption: empty parts are passed over. */
  method PathNames(path: string) returns (names: seq<string>)
    ensures names == Components(CleanBucketPath(path))
  {
    var parts := Split(CleanBucketPath(path), '/');
    names := [];
    var i := 0;
    assert parts[..0] == [];
    while i < |parts|
      invariant 0 <= i <= |parts|
      invariant names == NonEmpty(parts[..i])
    {
      assert parts[..i + 1][..i] == parts[..i];
      if parts[i] != "" {
        names := names + [parts[i]];
      }
      i := i + 1;
    }
    assert parts[..i] == parts;
  }

  lemma {:induction false} NonEmptyRest(parts: seq<string>)
    requires parts != [] && parts[0] == ""
    ensures NonEmpty(parts) == NonEmpty(parts[1..])
  {
    var n := |parts| - 1;
    if n > 0 {
      NonEmptyRest(parts[..n]);
      assert parts[1..][..n - 1] == parts[..n][1..];
    }
  }

  /** Taking off the leading slash does not change where a path leads. */
  lemma CleaningKeepsComponents(path: string)
    ensures Components(CleanBucketPath(path)) == Components(path)
  {
    if path != [] && path[0] == '/' {
      NonEmptyRest(Split(path, '/'));
      assert Split(path, '/')[1..] == Split(path[1..], '/');
    }
  }

  /** The second result of filepath.Split: what follows the last slash. */
  function Base(path: string): (base: string)
    ensures '/' !in base
  {
    var parts := Split(path, '/');
    parts[|parts| - 1]
  }

  lemma BaseOfChild(dir: string, name: string)
    requires '/' !in name
    ensures Base(dir + "/" + name) == name
  {
    SplitSnoc(dir, '/', name);
  }

  /** The path string made for a child leads to the child, also below "" and "/". */
  lemma ComponentsOfChild(dir: string, name: string)
    requires '/' !in name && name != []
    ensures Components(dir + "/" + name) == Components(dir) + [name]
  {
    SplitSnoc(dir, '/', name);
    var parts := Split(dir, '/');
    assert (parts + [name])[..|parts|] == parts;
  }

  lemma RootPaths()
    ensures Components("") == [] && Components("/") == []
  {
    assert [""][..0] == [] && ["", ""][..1] == [""];
    assert Split("/", '/') == ["", ""];
  }

  lemma ComponentsOfName(name: string)
    requires '/' !in name && name != []
    ensures Components(name) == [name]
  {
    SplitFree(name, '/');
    assert [name][..0] == [];
    assert NonEmpty([name]) == NonEmpty([]) + [name];
  }
}
