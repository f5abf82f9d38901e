/**
 * Python string operations the modelled code relies on, over `string`
 * (a sequence of Unicode code points): the whitespace class shared by
 * `str.strip()`, `str.split()` and the regular-expression class `\s`,
 * stripping, splitting into words, joining, `str.replace`, and decimal
 * rendering of integers.
 */
module Text {
  import opened Seqs

  /**
   * The characters for which Python's `str.isspace()` is true; `str.strip()`
   * and `str.split()` without arguments, and `\s` in a `str` pattern, use
   * exactly this set.
   */
  predicate IsSpace(c: char)
  {
    var k := c as int;
    k == 0x20 || (0x09 <= k <= 0x0d) || (0x1c <= k <= 0x1f) || k == 0x85 || k == 0xa0
    || k == 0x1680 || (0x2000 <= k <= 0x200a) || k == 0x2028 || k == 0x2029
    || k == 0x202f || k == 0x205f || k == 0x3000
  }

  /** Every character is whitespace (the empty string included): `not s.strip()`. */
  predicate IsBlank(s: string)
  {
    forall i :: 0 <= i < |s| ==> IsSpace(s[i])
  }

  /** `s.lstrip()`: the longest suffix of `s` after leading whitespace. */
  function TrimLeft(s: string): (r: string)
    ensures IsSuffix(r, s)
    ensures r == [] || !IsSpace(r[0])
    ensures forall i :: 0 <= i < |s| - |r| ==> IsSpace(s[i])
  {
    if s == [] || !IsSpace(s[0]) then s else TrimLeft(s[1..])
  }

  /** `s.rstrip()`: the longest prefix of `s` before trailing whitespace. */
  function TrimRight(s: string): (r: string)
    ensures IsPrefix(r, s)
    ensures r == [] || !IsSpace(r[|r| - 1])
    ensures forall i :: |r| <= i < |s| ==> IsSpace(s[i])
  {
    if s == [] || !IsSpace(s[|s| - 1]) then s else TrimRight(s[..|s| - 1])
  }

  /** `s.strip()`. */
  function Strip(s: string): string
  {
    TrimRight(TrimLeft(s))
  }

  /** Stripping removes exactly the whitespace at both ends: the result is a
   *  slice of the input whose two end characters are not whitespace, and
   *  everything cut away is whitespace. */
  lemma StripShape(s: string)
    ensures var k := |s| - |TrimLeft(s)|; var r := Strip(s);
      k + |r| <= |s| && r == s[k..k + |r|]
      && (forall i :: 0 <= i < k ==> IsSpace(s[i]))
      && (forall i :: k + |r| <= i < |s| ==> IsSpace(s[i]))
  {
    var t := TrimLeft(s);
    var r := TrimRight(t);
    var k := |s| - |t|;
    SliceOfSlice(s, k, |r|);
    forall i | k + |r| <= i < |s| ensures IsSpace(s[i]) {
      assert s[i] == t[i - k];
    }
  }

  /** A non-empty strip neither starts nor ends with whitespace. */
  lemma StripEnds(s: string)
    ensures Strip(s) == [] || (!IsSpace(Strip(s)[0]) && !IsSpace(Strip(s)[|Strip(s)| - 1]))
  {
    var t := TrimLeft(s);
    var r := TrimRight(t);
    if r != [] {
      assert r[0] == t[0];
    }
  }

  /** A prefix of a suffix of `s` is a slice of `s`. */
  lemma SliceOfSlice(s: string, k: nat, n: nat)
    requires k + n <= |s|
    ensures s[k..][..n] == s[k..k + n]
  {
  }

  /** `not s.strip()` holds exactly for blank strings. */
  lemma StripEmptyIffBlank(s: string)
    ensures Strip(s) == [] <==> IsBlank(s)
  {
    StripShape(s);
    StripEnds(s);
    var k := |s| - |TrimLeft(s)|;
    if Strip(s) == [] {
      forall i | 0 <= i < |s| ensures IsSpace(s[i]) {
        if i < k { } else { }
      }
    } else {
      assert !IsSpace(s[k]) by { assert Strip(s)[0] == s[k]; }
    }
  }

  /** A string that neither starts nor ends with whitespace is its own strip. */
  lemma StripOfStripped(s: string)
    requires s == [] || (!IsSpace(s[0]) && !IsSpace(s[|s| - 1]))
    ensures Strip(s) == s
  {
  }

  lemma StripIdempotent(s: string)
    ensures Strip(Strip(s)) == Strip(s)
  {
    StripEnds(s);
    StripOfStripped(Strip(s));
  }

  /** Index of the first whitespace character of `s`, or `|s|` when there is none. */
  function FirstSpace(s: string): (k: nat)
    ensures k <= |s|
    ensures forall i :: 0 <= i < k ==> !IsSpace(s[i])
    ensures k < |s| ==> IsSpace(s[k])
  {
    if s == [] || IsSpace(s[0]) then 0 else 1 + FirstSpace(s[1..])
  }

  /** `s.split()`: the maximal runs of non-whitespace characters, in order. */
  function Split(s: string): (words: seq<string>)
    decreases |s|
  {
    var t := TrimLeft(s);
    if t == [] then []
    else
      var k := FirstSpace(t);
      [t[..k]] + Split(t[k..])
  }

  /** Every word is non-empty and holds no whitespace. */
  lemma {:induction false} SplitWords(s: string)
    ensures forall w :: w in Split(s) ==> w != [] && forall i :: 0 <= i < |w| ==> !IsSpace(w[i])
    decreases |s|
  {
    var t := TrimLeft(s);
    if t != [] {
      var k := FirstSpace(t);
      var w := t[..k];
      assert k > 0;
      assert forall i :: 0 <= i < |w| ==> !IsSpace(w[i]) by {
        forall i | 0 <= i < |w| ensures !IsSpace(w[i]) {
          assert w[i] == t[i];
        }
      }
      SplitWords(t[k..]);
      var rest := Split(t[k..]);
      assert Split(s) == [w] + rest;
      forall v | v in Split(s) ensures v != [] && forall i :: 0 <= i < |v| ==> !IsSpace(v[i]) {
        if v != w {
          assert v in rest;
        }
      }
    }
  }

  /** `len(s.split())`. */
  function WordCount(s: string): nat
  {
    |Split(s)|
  }

  /** A string has no words exactly when it is blank. */
  lemma {:induction false} NoWordsIffBlank(s: string)
    ensures Split(s) == [] <==> IsBlank(s)
  {
    var t := TrimLeft(s);
    if t == [] {
      assert forall i :: 0 <= i < |s| ==> IsSpace(s[i]);
    } else {
      assert !IsSpace(s[|s| - |t|]);
    }
  }

  /** `sep.join(parts)`. */
  function Join(parts: seq<string>, sep: string): string
  {
    if parts == [] then [] else if |parts| == 1 then parts[0] else parts[0] + sep + Join(parts[1..], sep)
  }

  lemma {:induction false} JoinAppend(parts: seq<string>, sep: string, x: string)
    requires parts != []
    ensures Join(parts + [x], sep) == Join(parts, sep) + sep + x
  {
    if |parts| == 1 {
      assert parts + [x] == [parts[0], x];
    } else {
      assert (parts + [x])[1..] == parts[1..] + [x];
      JoinAppend(parts[1..], sep, x);
    }
  }

  /** Sum of the lengths of `parts`. */
  function TotalLength(parts: seq<string>): nat
  {
    if parts == [] then 0 else |parts[0]| + TotalLength(parts[1..])
  }

  /** The joined string is the parts plus one separator between each neighbouring pair. */
  lemma {:induction false} JoinLength(parts: seq<string>, sep: string)
    ensures parts != [] ==> |Join(parts, sep)| == TotalLength(parts) + (|parts| - 1) * |sep|
    ensures parts == [] ==> Join(parts, sep) == []
  {
    if |parts| > 1 {
      JoinLength(parts[1..], sep);
    }
  }

  /**
   * `s.replace(pat, rep)`: every leftmost non-overlapping occurrence of `pat`
   * replaced, the replacement text never scanned again. `str.format` with a
   * single named field `{f}` and no other braces does the same with `pat`
   * being `"{f}"`.
   */
  function ReplaceAll(s: string, pat: string, rep: string): string
    requires |pat| > 0
    decreases |s|
  {
    if |s| < |pat| then s
    else if s[..|pat|] == pat then rep + ReplaceAll(s[|pat|..], pat, rep)
    else [s[0]] + ReplaceAll(s[1..], pat, rep)
  }

  /** A string that never shows the first character of the pattern is unchanged. */
  lemma {:induction false} ReplaceAbsent(s: string, pat: string, rep: string)
    requires |pat| > 0
    requires pat[0] !in s
    ensures ReplaceAll(s, pat, rep) == s
  {
    if |s| >= |pat| {
      assert s[0] != pat[0];
      assert s[..|pat|] != pat by { assert s[..|pat|][0] == s[0]; }
      ReplaceAbsent(s[1..], pat, rep);
    }
  }

  /** One occurrence of the pattern between two stretches that never show its
   *  first character is replaced, and nothing else changes. */
  lemma {:induction false} ReplaceOne(a: string, pat: string, b: string, rep: string)
    requires |pat| > 0
    requires pat[0] !in a && pat[0] !in b
    ensures ReplaceAll(a + pat + b, pat, rep) == a + rep + b
  {
    var s := a + pat + b;
    if a == [] {
      assert s == pat + b;
      assert s[..|pat|] == pat;
      assert s[|pat|..] == b;
      ReplaceAbsent(b, pat, rep);
    } else {
      var tail := a[1..] + pat + b;
      assert s == [a[0]] + tail;
      assert s[0] != pat[0];
      assert s[..|pat|] != pat by { assert s[..|pat|][0] == s[0]; }
      assert s[1..] == tail;
      ReplaceOne(a[1..], pat, b, rep);
      calc {
        ReplaceAll(s, pat, rep);
        [s[0]] + ReplaceAll(tail, pat, rep);
        [a[0]] + (a[1..] + rep + b);
        { assert a == [a[0]] + a[1..]; }
        a + rep + b;
      }
    }
  }

  function DigitChar(d: int): char
    requires 0 <= d < 10
  {
    ('0' as int + d) as char
  }

  predicate IsDigit(c: char) { '0' <= c <= '9' }

  function DigitValue(c: char): (d: nat)
    requires IsDigit(c)
    ensures d < 10 && DigitChar(d) == c
  {
    c as int - '0' as int
  }

  /** `str(n)` for a non-negative integer. */
  function NatToString(n: nat): (r: string)
    ensures |r| >= 1 && forall i :: 0 <= i < |r| ==> IsDigit(r[i])
    decreases n
  {
    if n < 10 then [DigitChar(n)] else NatToString(n / 10) + [DigitChar(n % 10)]
  }

  /** The number a string of decimal digits denotes (`int(s)` on digits). */
  function DigitsValue(s: string): nat
    requires forall i :: 0 <= i < |s| ==> IsDigit(s[i])
  {
    if s == [] then 0 else 10 * DigitsValue(s[..|s| - 1]) + DigitValue(s[|s| - 1])
  }

  /** Decimal rendering is read back as the same number. */
  lemma {:induction false} NatToStringRoundTrip(n: nat)
    ensures DigitsValue(NatToString(n)) == n
  {
    if n >= 10 {
      var r := NatToString(n);
      assert r[..|r| - 1] == NatToString(n / 10);
      NatToStringRoundTrip(n / 10);
    }
  }

  /** ASCII-only `s.lower()`. */
  function ToLower(s: string): (r: string)
    ensures |r| == |s|
    ensures forall i :: 0 <= i < |s| ==> r[i] == (if 'A' <= s[i] <= 'Z' then (s[i] as int + 32) as char else s[i])
  {
    if s == [] then [] else
      [if 'A' <= s[0] <= 'Z' then (s[0] as int + 32) as char else s[0]] + ToLower(s[1..])
  }
}
