/** Text forms of bytes, and splitting text at a separator. */
module Codecs {
  import opened Wrappers

  newtype byte = x: int | 0 <= x < 256

  type Bytes = seq<byte>

  // ---------------------------------------------------------------------
  // Hexadecimal, section 8 of RFC 4648
  // ---------------------------------------------------------------------

  const HEX_DIGITS := "0123456789abcdef"

  function HexDigit(n: int): (c: char)
    requires 0 <= n < 16
    ensures c == HEX_DIGITS[n]
  {
    HEX_DIGITS[n]
  }

  /** Both cases are accepted. */
  function HexValue(c: char): Option<int> {
    if '0' <= c <= '9' then Some(c as int - '0' as int)
    else if 'a' <= c <= 'f' then Some(c as int - 'a' as int + 10)
    else if 'A' <= c <= 'F' then Some(c as int - 'A' as int + 10)
    else None
  }

  lemma HexValueOfDigit(n: int)
    requires 0 <= n < 16
    ensures HexValue(HexDigit(n)) == Some(n) && HexDigit(n) != '_'
  {
  }

  function EncodeHex(bytes: Bytes): string {
    if bytes == [] then ""
    else [HexDigit(bytes[0] as int / 16), HexDigit(bytes[0] as int % 16)] + EncodeHex(bytes[1..])
  }

  /** None for an odd length and for a character that is no digit. */
  function DecodeHex(s: string): Option<Bytes> {
    if s == "" then Some([])
    else if |s| == 1 then None
    else
      var high, low, rest := HexValue(s[0]), HexValue(s[1]), DecodeHex(s[2..]);
      if high.None? || low.None? || rest.None? then None
      else Some([ByteOf(high.value, low.value)] + rest.value)
  }

  function ByteOf(high: int, low: int): byte {
    if 0 <= high < 16 && 0 <= low < 16 then (16 * high + low) as byte else 0
  }

  /** Reading two digits and what follows them. */
  lemma {:induction false} DecodeTwo(c: char, d: char, rest: string, b: byte)
    requires HexValue(c) == Some(b as int / 16) && HexValue(d) == Some(b as int % 16) && DecodeHex(rest).Some?
    ensures DecodeHex([c, d] + rest) == Some([b] + DecodeHex(rest).value)
  {
    assert ([c, d] + rest)[2..] == rest;
  }

  lemma {:induction false} DecodeEncodeHex(bytes: Bytes)
    ensures DecodeHex(EncodeHex(bytes)) == Some(bytes)
    ensures '_' !in EncodeHex(bytes)
    ensures |EncodeHex(bytes)| == 2 * |bytes|
  {
    if bytes != [] {
      var b := bytes[0] as int;
      HexValueOfDigit(b / 16);
      HexValueOfDigit(b % 16);
      DecodeEncodeHex(bytes[1..]);
      DecodeTwo(HexDigit(b / 16), HexDigit(b % 16), EncodeHex(bytes[1..]), bytes[0]);
      assert [bytes[0]] + bytes[1..] == bytes;
    }
  }

  /** The capital letters for the digits from ten on. */
  function Capital(c: char): char {
    if 'a' <= c <= 'f' then c - 'a' + 'A' else c
  }

  function Capitals(s: string): string {
    if s == "" then "" else [Capital(s[0])] + Capitals(s[1..])
  }

  lemma CapitalValue(n: int)
    requires 0 <= n < 16
    ensures HexValue(Capital(HexDigit(n))) == Some(n)
  {
  }

  lemma {:induction false} CapitalsOfTwo(c: char, d: char, rest: string)
    ensures Capitals([c, d] + rest) == [Capital(c), Capital(d)] + Capitals(rest)
  {
    var s := [c, d] + rest;
    assert s[1..] == [d] + rest && s[1..][1..] == rest;
  }

  /** Text in capital letters is read as well. */
  lemma {:induction false} DecodeCapitals(bytes: Bytes)
    ensures DecodeHex(Capitals(EncodeHex(bytes))) == Some(bytes)
  {
    if bytes != [] {
      var b := bytes[0] as int;
      var c, d, rest := HexDigit(b / 16), HexDigit(b % 16), EncodeHex(bytes[1..]);
      CapitalValue(b / 16);
      CapitalValue(b % 16);
      DecodeCapitals(bytes[1..]);
      CapitalsOfTwo(c, d, rest);
      DecodeTwo(Capital(c), Capital(d), Capitals(rest), bytes[0]);
      assert [bytes[0]] + bytes[1..] == bytes;
    }
  }

  // ---------------------------------------------------------------------
  // Unpadded base64 with the URL alphabet, section 5 of RFC 4648
  // ---------------------------------------------------------------------

  /** The letters, the digits, a hyphen and an underscore. */
  function Base64Digit(n: int): (c: char)
    ensures c != '.'
  {
    if 0 <= n < 26 then 'A' + n as char
    else if 26 <= n < 52 then 'a' + (n - 26) as char
    else if 52 <= n < 62 then '0' + (n - 52) as char
    else if n == 62 then '-'
    else '_'
  }

  /** Three bytes at a time as four digits; one byte left over as two digits and two bytes as three. */
  function Cut(bytes: Bytes): (digits: seq<int>)
    ensures forall i :: 0 <= i < |digits| ==> 0 <= digits[i] < 64
  {
    if bytes == [] then []
    else
      var a := bytes[0] as int;
      if |bytes| == 1 then [a / 4, a % 4 * 16]
      else
        var b := bytes[1] as int;
        if |bytes| == 2 then [a / 4, a % 4 * 16 + b / 16, b % 16 * 4]
        else
          var c := bytes[2] as int;
          [a / 4, a % 4 * 16 + b / 16, b % 16 * 4 + c / 64, c % 64] + Cut(bytes[3..])
  }

  function Text(digits: seq<int>): string {
    if digits == [] then "" else [Base64Digit(digits[0])] + Text(digits[1..])
  }

  function EncodeBase64(bytes: Bytes): string {
    Text(Cut(bytes))
  }

  lemma {:induction false} TextShape(digits: seq<int>)
    ensures '.' !in Text(digits) && |Text(digits)| == |digits|
  {
    if digits != [] {
      TextShape(digits[1..]);
    }
  }

  lemma {:induction false} CutShape(bytes: Bytes)
    ensures |Cut(bytes)| == (8 * |bytes| + 5) / 6
  {
    if |bytes| >= 3 {
      CutShape(bytes[3..]);
    }
  }

  lemma Base64Shape(bytes: Bytes)
    ensures '.' !in EncodeBase64(bytes)
    ensures |EncodeBase64(bytes)| == (8 * |bytes| + 5) / 6
  {
    TextShape(Cut(bytes));
    CutShape(bytes);
  }

  function Base64Value(c: char): Option<int> {
    if 'A' <= c <= 'Z' then Some(c as int - 'A' as int)
    else if 'a' <= c <= 'z' then Some(c as int - 'a' as int + 26)
    else if '0' <= c <= '9' then Some(c as int - '0' as int + 52)
    else if c == '-' then Some(62)
    else if c == '_' then Some(63)
    else None
  }

  function Values(s: string): Option<seq<int>> {
    if s == "" then Some([])
    else
      var first, rest := Base64Value(s[0]), Values(s[1..]);
      if first.None? || rest.None? then None else Some([first.value] + rest.value)
  }

  function ByteAt(n: int): byte {
    if 0 <= n < 256 then n as byte else 0
  }

  /** Four digits at a time as three bytes; two digits left over as one byte and three as two. */
  function Join(digits: seq<int>): Bytes {
    if |digits| < 2 then []
    else
      var first := ByteAt(4 * digits[0] + digits[1] / 16);
      if |digits| == 2 then [first]
      else
        var second := ByteAt(digits[1] % 16 * 16 + digits[2] / 4);
        if |digits| == 3 then [first, second]
        else [first, second, ByteAt(digits[2] % 4 * 64 + digits[3])] + Join(digits[4..])
  }

  /** None for a character that is no digit and for a single digit at the end. */
  function DecodeBase64(s: string): Option<Bytes> {
    var digits := Values(s);
    if digits.None? || |digits.value| % 4 == 1 then None else Some(Join(digits.value))
  }

  lemma {:induction false} ValuesOfText(digits: seq<int>)
    requires forall i :: 0 <= i < |digits| ==> 0 <= digits[i] < 64
    ensures Values(Text(digits)) == Some(digits)
  {
    if digits != [] {
      ValuesOfText(digits[1..]);
      assert Text(digits)[1..] == Text(digits[1..]);
      assert [digits[0]] + digits[1..] == digits;
    }
  }

  /** The text never ends in a single digit. */
  lemma {:induction false} CutRemainder(bytes: Bytes)
    ensures |Cut(bytes)| % 4 != 1
  {
    if |bytes| >= 3 {
      CutRemainder(bytes[3..]);
    }
  }

  /** How three bytes are cut into four digits and put together again. */
  lemma ThreeBytes(x: byte, y: byte, z: byte)
    ensures var a, b, c := x as int, y as int, z as int;
      && ByteAt(4 * (a / 4) + (a % 4 * 16 + b / 16) / 16) == x
      && ByteAt((a % 4 * 16 + b / 16) % 16 * 16 + (b % 16 * 4 + c / 64) / 4) == y
      && ByteAt((b % 16 * 4 + c / 64) % 4 * 64 + c % 64) == z
  {
  }

  lemma {:induction false} JoinFour(digits: seq<int>, x: byte, y: byte, z: byte)
    requires |digits| >= 4
    requires digits[0] == x as int / 4 && digits[1] == x as int % 4 * 16 + y as int / 16
    requires digits[2] == y as int % 16 * 4 + z as int / 64 && digits[3] == z as int % 64
    ensures Join(digits) == [x, y, z] + Join(digits[4..])
  {
    ThreeBytes(x, y, z);
  }

  lemma {:induction false} JoinEnd(bytes: Bytes)
    requires |bytes| < 3
    ensures Join(Cut(bytes)) == bytes
  {
    if |bytes| == 1 {
      assert bytes == [bytes[0]];
    } else if |bytes| == 2 {
      assert bytes == [bytes[0], bytes[1]];
    }
  }

  lemma {:induction false} JoinCut(bytes: Bytes)
    ensures Join(Cut(bytes)) == bytes
  {
    if |bytes| < 3 {
      JoinEnd(bytes);
    } else {
      JoinCut(bytes[3..]);
      JoinFour(Cut(bytes), bytes[0], bytes[1], bytes[2]);
      assert Cut(bytes)[4..] == Cut(bytes[3..]);
      assert bytes == [bytes[0], bytes[1], bytes[2]] + bytes[3..];
    }
  }

  /** The bits of the last digit that belong to no byte are zero. */
  lemma {:induction false} UnusedBitsAreZero(b: byte, c: byte)
    ensures |Cut([b])| == 2 && Cut([b])[1] % 16 == 0
    ensures |Cut([b, c])| == 3 && Cut([b, c])[2] % 4 == 0
  {
  }

  /** Every byte sequence comes back from its text. */
  lemma DecodeEncodeBase64(bytes: Bytes)
    ensures DecodeBase64(EncodeBase64(bytes)) == Some(bytes)
  {
    ValuesOfText(Cut(bytes));
    CutRemainder(bytes);
    JoinCut(bytes);
  }

  // ---------------------------------------------------------------------
  // strings.Split
  // ---------------------------------------------------------------------

  /** Cuts at the separators found from left to right. */
  function SplitOn(s: string, sep: string): (parts: seq<string>)
    requires sep != ""
    ensures |parts| >= 1
    decreases |s|
  {
    if s == "" then [""]
    else if sep <= s then [""] + SplitOn(s[|sep|..], sep)
    else
      var rest := SplitOn(s[1..], sep);
      [[s[0]] + rest[0]] + rest[1..]
  }

  predicate Contains(s: string, sep: string) {
    exists i :: 0 <= i <= |s| && sep <= s[i..]
  }

  lemma ContainsRest(s: string, sep: string)
    requires s != "" && sep != ""
    ensures Contains(s, sep) <==> sep <= s || Contains(s[1..], sep)
  {
    if Contains(s, sep) && !(sep <= s) {
      var i :| 0 <= i <= |s| && sep <= s[i..];
      assert i > 0;
      assert s[1..][i - 1..] == s[i..];
    }
    if Contains(s[1..], sep) {
      var i :| 0 <= i <= |s[1..]| && sep <= s[1..][i..];
      assert s[i + 1..] == s[1..][i..];
    }
    if sep <= s {
      assert s[0..] == s;
    }
  }

  /** The first part is everything exactly when there is no separator, and then it is the only part. */
  lemma {:induction false} SplitFirst(s: string, sep: string)
    requires sep != ""
    ensures SplitOn(s, sep)[0] == s <==> !Contains(s, sep)
    ensures |SplitOn(s, sep)| == 1 <==> !Contains(s, sep)
    ensures |SplitOn(s, sep)[0]| <= |s|
    decreases |s|
  {
    if s != "" {
      ContainsRest(s, sep);
      if !(sep <= s) {
        SplitFirst(s[1..], sep);
        assert [s[0]] + s[1..] == s;
        if SplitOn(s, sep)[0] == s {
          assert SplitOn(s[1..], sep)[0] == s[1..];
        }
      }
    }
  }

  /**
   * Text that cannot start a separator is the first part, and the text after the
   * first separator is split on its own.
   */
  lemma {:induction false} SplitAfter(head: string, sep: string, tail: string)
    requires sep != "" && sep[0] !in head
    ensures SplitOn(head + sep + tail, sep) == [head] + SplitOn(tail, sep)
    decreases |head|
  {
    var s := head + sep + tail;
    if head == "" {
      assert s == sep + tail;
      assert s[|sep|..] == tail;
    } else {
      assert s[0] == head[0];
      assert s[1..] == head[1..] + sep + tail;
      SplitAfter(head[1..], sep, tail);
      assert [head[0]] + head[1..] == head;
    }
  }

  /** The first part does not hold the separator. */
  lemma {:induction false} FirstPartFree(s: string, sep: string)
    requires sep != ""
    ensures !Contains(SplitOn(s, sep)[0], sep)
    ensures SplitOn(s, sep)[0] <= s
    decreases |s|
  {
    var first := SplitOn(s, sep)[0];
    if s == "" || sep <= s {
      assert first == "";
    } else {
      FirstPartFree(s[1..], sep);
      ContainsRest(first, sep);
      assert first[1..] == SplitOn(s[1..], sep)[0];
      assert first <= s;
    }
  }

  lemma {:induction false} SecondPartFree(s: string, sep: string)
    requires sep != "" && |SplitOn(s, sep)| >= 2
    ensures !Contains(SplitOn(s, sep)[1], sep)
    decreases |s|
  {
    if sep <= s {
      FirstPartFree(s[|sep|..], sep);
    } else {
      SecondPartFree(s[1..], sep);
    }
  }
}
