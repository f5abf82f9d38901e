/**
 * Base64 as Python's `base64.b64encode` / `base64.b64decode` use it: the
 * standard alphabet and padding of section 4 of RFC 4648. Decoding is
 * lenient in the way binascii's non-strict mode is: a non-ASCII character is
 * an error, every other character outside the alphabet is discarded, and
 * what remains must be correctly padded.
 */
module Base64 {
  import opened Wrappers

  type Byte = b: int | 0 <= b < 256

  /** The value of one base64 digit. */
  type Sextet = v: int | 0 <= v < 64

  function SextetChar(v: Sextet): char
  {
    if v < 26 then ('A' as int + v) as char
    else if v < 52 then ('a' as int + (v - 26)) as char
    else if v < 62 then ('0' as int + (v - 52)) as char
    else if v == 62 then '+'
    else '/'
  }

  function SextetOf(c: char): Option<Sextet>
  {
    if 'A' <= c <= 'Z' then Some(c as int - 'A' as int)
    else if 'a' <= c <= 'z' then Some(c as int - 'a' as int + 26)
    else if '0' <= c <= '9' then Some(c as int - '0' as int + 52)
    else if c == '+' then Some(62)
    else if c == '/' then Some(63)
    else None
  }

  predicate InAlphabet(c: char) { SextetOf(c).Some? }

  /** The alphabet is a bijection between sextets and its 64 characters. */
  lemma SextetRoundTrip(v: Sextet)
    ensures SextetOf(SextetChar(v)) == Some(v)
  {
  }

  lemma SextetCharKept(v: Sextet)
    ensures InAlphabet(SextetChar(v)) && IsAscii(SextetChar(v)) && SextetChar(v) != '='
  {
  }

  lemma CharRoundTrip(c: char)
    requires InAlphabet(c)
    ensures SextetChar(SextetOf(c).value) == c
  {
  }

  /** Encodes three bytes as four digits, or the final one or two bytes as
   *  two or three digits followed by padding. */
  function Encode(bytes: seq<Byte>): (s: string)
    ensures |s| == 4 * ((|bytes| + 2) / 3)
    decreases |bytes|
  {
    if |bytes| == 0 then []
    else if |bytes| == 1 then
      [SextetChar(bytes[0] / 4), SextetChar((bytes[0] % 4) * 16), '=', '=']
    else if |bytes| == 2 then
      [SextetChar(bytes[0] / 4), SextetChar((bytes[0] % 4) * 16 + bytes[1] / 16),
       SextetChar((bytes[1] % 16) * 4), '=']
    else EncodeTriple(bytes[0], bytes[1], bytes[2]) + Encode(bytes[3..])
  }

  /** Three bytes as four digits. */
  function EncodeTriple(x: Byte, y: Byte, z: Byte): (g: string)
    ensures |g| == 4
  {
    [SextetChar(x / 4), SextetChar((x % 4) * 16 + y / 16), SextetChar((y % 16) * 4 + z / 64), SextetChar(z % 64)]
  }

  /** The last group: four digits, three digits and '=', or two digits and
   *  "=="; the unused low bits of the last digit are ignored. */
  function DecodeLast(g: string): Option<seq<Byte>>
    requires |g| == 4
  {
    var a, b, c, d := SextetOf(g[0]), SextetOf(g[1]), SextetOf(g[2]), SextetOf(g[3]);
    if a.None? || b.None? then None
    else if g[2] == '=' && g[3] == '=' then Some([a.value * 4 + b.value / 16])
    else if c.None? then None
    else if g[3] == '=' then Some([a.value * 4 + b.value / 16, (b.value % 16) * 16 + c.value / 4])
    else if d.None? then None
    else Some([a.value * 4 + b.value / 16, (b.value % 16) * 16 + c.value / 4, (c.value % 4) * 64 + d.value])
  }

  /** A group of four digits in front of further groups. */
  function DecodeGroup(g: string): Option<seq<Byte>>
    requires |g| == 4
  {
    var a, b, c, d := SextetOf(g[0]), SextetOf(g[1]), SextetOf(g[2]), SextetOf(g[3]);
    if a.None? || b.None? || c.None? || d.None? then None
    else Some([a.value * 4 + b.value / 16, (b.value % 16) * 16 + c.value / 4, (c.value % 4) * 64 + d.value])
  }

  /** RFC 4648 section 4 decoding of a string made of alphabet characters and
   *  '=': groups of four, padding only in the last group. */
  function DecodeStrict(s: string): Option<seq<Byte>>
  {
    if |s| % 4 != 0 then None else DecodeGroups(s)
  }

  function DecodeGroups(s: string): Option<seq<Byte>>
    requires |s| % 4 == 0
    decreases |s|
  {
    if s == [] then Some([])
    else if |s| == 4 then DecodeLast(s)
    else
      match DecodeGroup(s[..4])
      case None => None
      case Some(head) =>
        match DecodeGroups(s[4..])
        case None => None
        case Some(rest) => Some(head + rest)
  }

  predicate IsAscii(c: char) { c as int < 128 }

  /** The characters the lenient decoder keeps. */
  function Kept(s: string): (r: string)
    ensures forall i :: 0 <= i < |r| ==> InAlphabet(r[i]) || r[i] == '='
  {
    if s == [] then []
    else (if InAlphabet(s[0]) || s[0] == '=' then [s[0]] else []) + Kept(s[1..])
  }

  /** `base64.b64decode(s)` for a `str` argument; None is the exception. */
  function Decode(s: string): Option<seq<Byte>>
  {
    if exists i :: 0 <= i < |s| && !IsAscii(s[i]) then None else DecodeStrict(Kept(s))
  }

  /** The bit arithmetic of a full group undoes that of its encoding. */
  lemma QuadRoundTrip(x: Byte, y: Byte, z: Byte)
    ensures (x / 4) * 4 + ((x % 4) * 16 + y / 16) / 16 == x
    ensures (((x % 4) * 16 + y / 16) % 16) * 16 + ((y % 16) * 4 + z / 64) / 4 == y
    ensures (((y % 16) * 4 + z / 64) % 4) * 64 + z % 64 == z
  {
  }

  lemma PairRoundTrip(x: Byte, y: Byte)
    ensures (x / 4) * 4 + ((x % 4) * 16 + y / 16) / 16 == x
    ensures (((x % 4) * 16 + y / 16) % 16) * 16 + ((y % 16) * 4) / 4 == y
  {
  }

  lemma SingleRoundTrip(x: Byte)
    ensures (x / 4) * 4 + ((x % 4) * 16) / 16 == x
  {
  }

  lemma DecodeOne(x: Byte)
    ensures DecodeStrict(Encode([x])) == Some([x])
  {
    SextetRoundTrip(x / 4);
    SextetRoundTrip((x % 4) * 16);
    SingleRoundTrip(x);
  }

  lemma DecodeTwo(x: Byte, y: Byte)
    ensures DecodeStrict(Encode([x, y])) == Some([x, y])
  {
    SextetRoundTrip(x / 4);
    SextetRoundTrip((x % 4) * 16 + y / 16);
    SextetRoundTrip((y % 16) * 4);
    SextetCharKept((y % 16) * 4);
    PairRoundTrip(x, y);
  }

  /** The four digits of a triple decode back to it, alone or as the last group. */
  lemma DecodeTriple(x: Byte, y: Byte, z: Byte)
    ensures DecodeGroup(EncodeTriple(x, y, z)) == Some([x, y, z])
    ensures DecodeLast(EncodeTriple(x, y, z)) == Some([x, y, z])
  {
    SextetRoundTrip(x / 4);
    SextetRoundTrip((x % 4) * 16 + y / 16);
    SextetRoundTrip((y % 16) * 4 + z / 64);
    SextetRoundTrip(z % 64);
    SextetCharKept((y % 16) * 4 + z / 64);
    SextetCharKept(z % 64);
    QuadRoundTrip(x, y, z);
  }

  /** A full group in front of further groups decodes to its bytes followed
   *  by the decoding of the rest. */
  lemma DecodeGroupsStep(g: string, rest: string)
    requires |g| == 4 && rest != [] && |rest| % 4 == 0
    requires DecodeGroup(g).Some? && DecodeGroups(rest).Some?
    ensures |g + rest| % 4 == 0
    ensures DecodeGroups(g + rest) == Some(DecodeGroup(g).value + DecodeGroups(rest).value)
  {
    SplitConcat(g, rest);
  }

  lemma SplitConcat<T>(a: seq<T>, b: seq<T>)
    ensures (a + b)[..|a|] == a && (a + b)[|a|..] == b
  {
  }

  /** Decoding inverts encoding. */
  lemma {:induction false} DecodeStrictEncode(bytes: seq<Byte>)
    ensures DecodeStrict(Encode(bytes)) == Some(bytes)
    decreases |bytes|
  {
    if |bytes| == 1 {
      DecodeOne(bytes[0]);
      assert bytes == [bytes[0]];
    } else if |bytes| == 2 {
      DecodeTwo(bytes[0], bytes[1]);
      assert bytes == [bytes[0], bytes[1]];
    } else if |bytes| == 3 {
      DecodeThree(bytes);
    } else if |bytes| > 3 {
      var rest := bytes[3..];
      DecodeStrictEncode(rest);
      assert Encode(bytes) == EncodeTriple(bytes[0], bytes[1], bytes[2]) + Encode(rest);
      DecodeAfterTriple(bytes[0], bytes[1], bytes[2], Encode(rest), rest);
      assert bytes == [bytes[0], bytes[1], bytes[2]] + rest;
    }
  }

  lemma DecodeThree(bytes: seq<Byte>)
    requires |bytes| == 3
    ensures DecodeStrict(Encode(bytes)) == Some(bytes)
  {
    var g := EncodeTriple(bytes[0], bytes[1], bytes[2]);
    assert Encode(bytes) == g + [] == g;
    DecodeTriple(bytes[0], bytes[1], bytes[2]);
    assert bytes == [bytes[0], bytes[1], bytes[2]];
  }

  /** The digits of a triple in front of further groups that decode. */
  lemma DecodeAfterTriple(x: Byte, y: Byte, z: Byte, rest: string, r: seq<Byte>)
    requires rest != [] && DecodeStrict(rest) == Some(r)
    ensures DecodeStrict(EncodeTriple(x, y, z) + rest) == Some([x, y, z] + r)
  {
    DecodeTriple(x, y, z);
    DecodeGroupsStep(EncodeTriple(x, y, z), rest);
  }

  /** The first group of an encoding: alphabet characters and padding. */
  lemma HeadCharacters(bytes: seq<Byte>)
    requires |bytes| > 0
    ensures |Encode(bytes)| >= 4
    ensures forall i :: 0 <= i < 4 ==> IsAscii(Encode(bytes)[i]) && (InAlphabet(Encode(bytes)[i]) || Encode(bytes)[i] == '=')
  {
    var x := bytes[0];
    SextetCharKept(x / 4);
    if |bytes| == 1 {
      SextetCharKept((x % 4) * 16);
    } else if |bytes| == 2 {
      SextetCharKept((x % 4) * 16 + bytes[1] / 16);
      SextetCharKept((bytes[1] % 16) * 4);
    } else {
      var y, z := bytes[1], bytes[2];
      SextetCharKept((x % 4) * 16 + y / 16);
      SextetCharKept((y % 16) * 4 + z / 64);
      SextetCharKept(z % 64);
      assert Encode(bytes)[..4] == EncodeTriple(x, y, z);
    }
  }

  /** Every character of an encoding is ASCII and kept by the lenient decoder. */
  lemma {:induction false} EncodeCharacters(bytes: seq<Byte>)
    ensures forall i :: 0 <= i < |Encode(bytes)| ==> IsAscii(Encode(bytes)[i])
    ensures Kept(Encode(bytes)) == Encode(bytes)
    decreases |bytes|
  {
    var s := Encode(bytes);
    if |bytes| > 0 {
      HeadCharacters(bytes);
      var head := s[..4];
      KeptGroup(head);
      if |bytes| >= 3 {
        var rest := Encode(bytes[3..]);
        assert s == head + rest;
        EncodeCharacters(bytes[3..]);
        KeptAppend(head, rest);
        forall i | 4 <= i < |s| ensures IsAscii(s[i]) {
          assert s[i] == rest[i - 4];
        }
      } else {
        assert s == head;
      }
    }
  }

  lemma {:induction false} KeptGroup(s: string)
    requires forall i :: 0 <= i < |s| ==> InAlphabet(s[i]) || s[i] == '='
    ensures Kept(s) == s
  {
    if s != [] {
      KeptGroup(s[1..]);
    }
  }

  lemma {:induction false} KeptAppend(a: string, b: string)
    ensures Kept(a + b) == Kept(a) + Kept(b)
  {
    if a == [] {
      assert a + b == b;
    } else {
      assert (a + b)[1..] == a[1..] + b;
      KeptAppend(a[1..], b);
    }
  }

  /** `b64decode(b64encode(b)) == b`. */
  lemma DecodeEncode(bytes: seq<Byte>)
    ensures Decode(Encode(bytes)) == Some(bytes)
  {
    EncodeCharacters(bytes);
    DecodeStrictEncode(bytes);
  }

  /** An ASCII character outside the alphabet and padding, anywhere in the
   *  input, is discarded: the decoding is that of the input without it. */
  lemma DecodeSkipsNoise(a: string, c: char, b: string)
    requires IsAscii(c) && !InAlphabet(c) && c != '='
    ensures Decode(a + [c] + b) == Decode(a + b)
  {
    var s, t := a + [c] + b, a + b;
    assert Kept(s) == Kept(t) by {
      KeptAppend(a + [c], b);
      KeptAppend(a, [c]);
      KeptAppend(a, b);
      assert Kept([c]) == [] by { assert [c][1..] == []; }
    }
    AsciiWithout(a, c, b);
  }

  /** Removing an ASCII character keeps the input's ASCII-ness. */
  lemma AsciiWithout(a: string, c: char, b: string)
    requires IsAscii(c)
    ensures (exists i :: 0 <= i < |a + [c] + b| && !IsAscii((a + [c] + b)[i]))
        <==> (exists i :: 0 <= i < |a + b| && !IsAscii((a + b)[i]))
  {
    var s, t := a + [c] + b, a + b;
    forall i | 0 <= i < |s| && !IsAscii(s[i]) ensures exists j :: 0 <= j < |t| && !IsAscii(t[j]) {
      if i < |a| { assert t[i] == s[i]; } else { assert i > |a| && t[i - 1] == s[i]; }
    }
    forall j | 0 <= j < |t| && !IsAscii(t[j]) ensures exists i :: 0 <= i < |s| && !IsAscii(s[i]) {
      if j < |a| { assert s[j] == t[j]; } else { assert s[j + 1] == t[j]; }
    }
  }
}
