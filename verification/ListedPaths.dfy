/**
 * The path that a listing reports, on the text: what the pattern
 * "/ip(f|n)s/[^/]*(/.*)" takes out of a slash-separated path.
 */
module ListedPaths {
  import opened Wrappers
  import opened Listing

  /** The path as text. */
  function Text(names: seq<string>): string {
    if names == [] then ""
    else if |names| == 1 then names[0]
    else names[0] + "/" + Text(names[1..])
  }

  function SlashFrom(s: string, i: nat): (r: Option<nat>)
    requires i <= |s|
    ensures r.Some? ==> i <= r.value < |s| && s[r.value] == '/'
    decreases |s| - i
  {
    if i == |s| then None else if s[i] == '/' then Some(i) else SlashFrom(s, i + 1)
  }

  predicate StartsPattern(s: string, i: nat) {
    i + 6 <= |s| && (s[i..i + 6] == "/ipfs/" || s[i..i + 6] == "/ipns/")
  }

  /** The last group of the first match from place i on: it begins at the next slash. */
  function LastGroup(s: string, i: nat): Option<string>
    requires i <= |s|
    decreases |s| - i
  {
    if i == |s| then None
    else if StartsPattern(s, i) && SlashFrom(s, i + 6).Some? then Some(s[SlashFrom(s, i + 6).value..])
    else LastGroup(s, i + 1)
  }

  /** The relative path of listDirAtPath for the text of an item's path. */
  function RelPath(s: string): string {
    var group := LastGroup(s, 0);
    if group.Some? then group.value else s
  }

  predicate SlashFree(names: seq<string>) {
    forall i :: 0 <= i < |names| ==> '/' !in names[i]
  }

  // ---------------------------------------------------------------------
  // Shifting the text
  // ---------------------------------------------------------------------

  lemma {:induction false} SlashShift(a: string, s: string, i: nat)
    requires i <= |s|
    ensures var r := SlashFrom(s, i);
      SlashFrom(a + s, |a| + i) == if r.Some? then Some(|a| + r.value) else None
    decreases |s| - i
  {
    if i < |s| {
      assert (a + s)[|a| + i] == s[i];
      SlashShift(a, s, i + 1);
    }
  }

  lemma {:induction false} GroupShift(a: string, s: string, i: nat)
    requires i <= |s|
    ensures LastGroup(a + s, |a| + i) == LastGroup(s, i)
    decreases |s| - i
  {
    if i < |s| {
      GroupShift(a, s, i + 1);
      StartShift(a, s, i);
      if i + 6 <= |s| {
        SlashShift(a, s, i + 6);
        if SlashFrom(s, i + 6).Some? {
          RestShift(a, s, SlashFrom(s, i + 6).value);
        }
      }
    }
  }

  lemma RestShift(a: string, s: string, i: nat)
    requires i <= |s|
    ensures (a + s)[|a| + i..] == s[i..]
  {
  }

  lemma StartShift(a: string, s: string, i: nat)
    ensures StartsPattern(a + s, |a| + i) <==> StartsPattern(s, i)
  {
    if i + 6 <= |s| {
      assert (a + s)[|a| + i..|a| + i + 6] == s[i..i + 6];
    }
  }

  /** No match begins inside a name. */
  lemma {:induction false} SkipName(name: string, s: string, i: nat)
    requires '/' !in name && i <= |name| && (s == "" || s[0] == '/')
    ensures LastGroup(name + s, i) == LastGroup(name + s, |name|)
    decreases |name| - i
  {
    if i < |name| {
      assert (name + s)[i] == name[i] != '/';
      if StartsPattern(name + s, i) {
        assert (name + s)[i..i + 6][0] == (name + s)[i];
      }
      SkipName(name, s, i + 1);
    }
  }

  lemma {:induction false} NextSlash(name: string, s: string, i: nat)
    requires '/' !in name && i <= |name| && (s == "" || s[0] == '/')
    ensures SlashFrom(name + s, i) == if s == "" then None else Some(|name|)
    decreases |name| - i
  {
    if i < |name| {
      assert (name + s)[i] == name[i];
      NextSlash(name, s, i + 1);
    }
  }

  /** What follows the first name. */
  function After(names: seq<string>): string
    requires names != []
  {
    if |names| == 1 then "" else "/" + Text(names[1..])
  }

  lemma TextSplit(names: seq<string>)
    requires names != []
    ensures Text(names) == names[0] + After(names)
  {
    if |names| > 1 {
      assert names[0] + "/" + Text(names[1..]) == names[0] + ("/" + Text(names[1..]));
    }
  }

  /** The first slash of a name and what follows it comes right after the name. */
  lemma NameThenSlash(name: string, after: string)
    requires '/' !in name && (after == "" || after[0] == '/')
    ensures forall k :: 0 <= k < |name| ==> (name + after)[k] != '/'
    ensures after != "" ==> (name + after)[|name|] == '/'
  {
    assert forall k :: 0 <= k < |name| ==> (name + after)[k] == name[k];
  }

  lemma FourLetters(name: string, after: string)
    requires '/' !in name && (after == "" || after[0] == '/')
    requires |name + after| >= 5 && (name + after)[4] == '/' && forall k :: 0 <= k < 4 ==> (name + after)[k] != '/'
    ensures name == (name + after)[..4]
  {
    NameThenSlash(name, after);
    assert |name| == 4;
  }

  /** The text goes on with a prefix name and a slash exactly when the next name is one and not the last. */
  lemma StartsIff(names: seq<string>)
    requires |names| >= 2 && SlashFree(names)
    ensures StartsPattern(After(names), 0) <==> IsIpfsPrefix(names[1]) && |names| >= 3
  {
    var rest, s := names[1..], After(names);
    TextSplit(rest);
    var tail := names[1] + After(rest);
    assert s == "/" + tail;
    if StartsPattern(s, 0) {
      var word := s[0..6];
      assert s[1..] == tail && forall k :: 0 <= k < 5 ==> word[k + 1] == tail[k];
      FourLetters(names[1], After(rest));
      assert names[1] == word[1..5];
    }
    if IsIpfsPrefix(names[1]) && |names| >= 3 {
      assert After(rest)[0] == '/';
      assert s[0..6] == "/" + names[1] + "/";
    }
  }

  /** Where the slash after the cid is, and what follows it. */
  lemma SlashAfterCid(names: seq<string>)
    requires |names| >= 3 && SlashFree(names) && |names[1]| == 4
    ensures var s := After(names);
      && |s| >= 6 && (SlashFrom(s, 6).None? <==> |names| == 3)
      && (|names| > 3 ==> s[SlashFrom(s, 6).value..] == "/" + Text(names[3..]))
  {
    var head, below := "/" + names[1] + "/", Text(names[2..]);
    TextSplit(names[1..]);
    assert names[1..][1..] == names[2..] && names[2..][1..] == names[3..];
    assert After(names) == head + below;
    TextSplit(names[2..]);
    var after := After(names[2..]);
    NextSlash(names[2], after, 0);
    SlashShift(head, below, 0);
    assert head + below == (head + names[2]) + after;
    assert (head + below)[|head + names[2]|..] == after;
  }

  // ---------------------------------------------------------------------
  // The pattern on the names
  // ---------------------------------------------------------------------

  lemma FirstNameSkipped(names: seq<string>)
    requires names != [] && SlashFree(names)
    ensures LastGroup(Text(names), 0) == LastGroup(After(names), 0)
  {
    TextSplit(names);
    SkipName(names[0], After(names), 0);
    GroupShift(names[0], After(names), 0);
  }

  lemma {:induction false} GroupAtSlash(rest: string)
    ensures var s := "/" + rest;
      LastGroup(s, 0) ==
        if StartsPattern(s, 0) && SlashFrom(s, 6).Some? then Some(s[SlashFrom(s, 6).value..]) else LastGroup(rest, 0)
  {
    GroupShift("/", rest, 0);
  }

  lemma {:induction false} GroupStep(names: seq<string>)
    requires |names| >= 2 && SlashFree(names)
    ensures LastGroup(Text(names), 0) ==
      if IsIpfsPrefix(names[1]) && |names| >= 4 then Some("/" + Text(names[3..]))
      else LastGroup(Text(names[1..]), 0)
  {
    FirstNameSkipped(names);
    GroupAtSlash(Text(names[1..]));
    StartsIff(names);
    if |names| >= 3 && IsIpfsPrefix(names[1]) {
      SlashAfterCid(names);
    }
  }

  lemma {:induction false} NoGroup(names: seq<string>)
    requires names != [] && SlashFree(names) && NoPrefixInside(names)
    ensures LastGroup(Text(names), 0).None?
    decreases |names|
  {
    if |names| == 1 {
      TextSplit(names);
      SkipName(names[0], "", 0);
      assert names[0] + "" == names[0];
    } else {
      GroupStep(names);
      assert forall i :: 0 <= i < |names[1..]| ==> names[1..][i] == names[i + 1];
      NoGroup(names[1..]);
    }
  }

  lemma {:induction false} GroupIs(names: seq<string>, i: nat)
    requires SlashFree(names) && 1 <= i && i + 2 < |names| && IsIpfsPrefix(names[i])
    requires forall j :: 1 <= j < i ==> !IsIpfsPrefix(names[j])
    ensures LastGroup(Text(names), 0) == Some("/" + Text(names[i + 2..]))
    decreases |names|
  {
    GroupStep(names);
    if i > 1 {
      var rest := names[1..];
      assert forall j :: 0 <= j < |rest| ==> rest[j] == names[j + 1];
      GroupIs(rest, i - 1);
      assert rest[i + 1..] == names[i + 2..];
    }
  }

  /**
   * For every path of slash-free names, what the pattern takes out of its text
   * is the text of the path that the listing reports, with a slash in front
   * when the path was cut.
   */
  lemma RelPathIsShown(names: seq<string>)
    requires names != [] && SlashFree(names)
    ensures RelPath(Text(names)) == if NoPrefixInside(names) then Text(Shown(names)) else "/" + Text(Shown(names))
  {
    if NoPrefixInside(names) {
      NoGroup(names);
      ShownIffNoPrefix(names);
    } else {
      var i := FirstPrefix(names, 1);
      GroupIs(names, i);
      ShownIsCut(names, i);
    }
  }

  lemma {:induction false} FirstPrefix(names: seq<string>, k: nat) returns (i: nat)
    requires exists j :: k <= j && j + 2 < |names| && IsIpfsPrefix(names[j])
    ensures k <= i && i + 2 < |names| && IsIpfsPrefix(names[i]) && forall j :: k <= j < i ==> !IsIpfsPrefix(names[j])
    decreases |names| - k
  {
    if IsIpfsPrefix(names[k]) {
      i := k;
    } else {
      i := FirstPrefix(names, k + 1);
    }
  }
}
