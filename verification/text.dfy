/** The string operations both formatters are built from: joining with a
    separator, splitting on one character, replacing one character by
    another, and the decimal rendering of a non-negative integer. */
module Text {
  import opened Wrappers

  /** `parts.join(sep)`: the empty list joins to "". */
  function Join(parts: seq<string>, sep: string): string
  {
    if |parts| == 0 then ""
    else if |parts| == 1 then parts[0]
    else parts[0] + sep + Join(parts[1..], sep)
  }

  /** `s.split(c)` for a one-character separator: the pieces between the
      occurrences of `c`; there is always at least one piece. */
  function Split(s: string, c: char): (r: seq<string>)
    ensures |r| >= 1
  {
    if |s| == 0 then [""]
    else
      var rest := Split(s[1..], c);
      if s[0] == c then [""] + rest
      else [[s[0]] + rest[0]] + rest[1..]
  }

  /** Every occurrence of `from` replaced by `to`: `s.replace(/from/g, to)`. */
  function ReplaceAll(s: string, from: char, to: char): string
  {
    if |s| == 0 then ""
    else [if s[0] == from then to else s[0]] + ReplaceAll(s[1..], from, to)
  }

  /** The whitespace JSON allows around a value. */
  predicate JsonSpace(c: char) {
    c == ' ' || c == '\t' || c == '\n' || c == '\r'
  }

  /** The first character of `s` that is not JSON whitespace, if any. */
  function FirstSignificant(s: string): Option<char>
  {
    if |s| == 0 then None
    else if JsonSpace(s[0]) then FirstSignificant(s[1..])
    else Some(s[0])
  }

  predicate IsDigit(c: char) {
    '0' <= c <= '9'
  }

  function DigitChar(d: nat): (c: char)
    requires d < 10
    ensures IsDigit(c)
  {
    "0123456789"[d]
  }

  /** The decimal rendering JavaScript gives a non-negative integer below
      10^21 (from 10^21 on it switches to exponent form); the clock reading
      and the random draw it is used for stay far below that. */
  function NatStr(n: nat): (r: string)
    ensures |r| >= 1
    ensures forall i :: 0 <= i < |r| ==> IsDigit(r[i])
  {
    if n < 10 then [DigitChar(n)]
    else NatStr(n / 10) + [DigitChar(n % 10)]
  }

  /** What follows the first occurrence of `c` in `s`; None if `c` does not occur. */
  function AfterFirst(s: string, c: char): (r: Option<string>)
    ensures r.Some? ==> |r.value| < |s|
  {
    if |s| == 0 then None
    else if s[0] == c then Some(s[1..])
    else AfterFirst(s[1..], c)
  }

  // ---------------------------------------------------------------------
  // Lemmas
  // ---------------------------------------------------------------------

  /** Splitting at one occurrence of the separator splits the two sides
      independently. */
  lemma {:induction false} SplitAround(a: string, b: string, c: char)
    ensures Split(a + [c] + b, c) == Split(a, c) + Split(b, c)
  {
    if |a| == 0 {
      assert a + [c] + b == [c] + b;
      assert ([c] + b)[1..] == b;
    } else {
      assert (a + [c] + b)[0] == a[0];
      assert (a + [c] + b)[1..] == a[1..] + [c] + b;
      SplitAround(a[1..], b, c);
    }
  }

  /** A string free of the separator splits into itself. */
  lemma {:induction false} SplitFree(s: string, c: char)
    requires c !in s
    ensures Split(s, c) == [s]
  {
    if |s| > 0 {
      assert s[0] != c;
      SplitFree(s[1..], c);
      assert [s[0]] + s[1..] == s;
    }
  }

  /** Split undoes Join when no part contains the separator. */
  lemma {:induction false} SplitJoin(parts: seq<string>, c: char)
    requires |parts| >= 1
    requires forall i :: 0 <= i < |parts| ==> c !in parts[i]
    ensures Split(Join(parts, [c]), c) == parts
  {
    if |parts| == 1 {
      SplitFree(parts[0], c);
    } else {
      SplitJoin(parts[1..], c);
      SplitAround(parts[0], Join(parts[1..], [c]), c);
      SplitFree(parts[0], c);
      assert [parts[0]] + parts[1..] == parts;
    }
  }

  /** A joined list starts with its first part. */
  lemma JoinHead(parts: seq<string>, sep: string)
    requires |parts| >= 1
    ensures exists rest :: Join(parts, sep) == parts[0] + rest
  {
    if |parts| == 1 {
      assert Join(parts, sep) == parts[0] + "";
    } else {
      assert Join(parts, sep) == parts[0] + (sep + Join(parts[1..], sep));
    }
  }

  /** ReplaceAll changes exactly the positions that held `from`. */
  lemma {:induction false} ReplaceAllPointwise(s: string, from: char, to: char)
    ensures |ReplaceAll(s, from, to)| == |s|
    ensures forall i :: 0 <= i < |s| ==>
      ReplaceAll(s, from, to)[i] == (if s[i] == from then to else s[i])
  {
    if |s| > 0 {
      ReplaceAllPointwise(s[1..], from, to);
    }
  }

  /** When `to` does not occur in `s`, splitting the replaced string on `to`
      gives the same pieces as splitting `s` on `from`. */
  lemma {:induction false} SplitAfterReplace(s: string, from: char, to: char)
    requires to !in s
    ensures Split(ReplaceAll(s, from, to), to) == Split(s, from)
  {
    if |s| > 0 {
      SplitAfterReplace(s[1..], from, to);
      var r := ReplaceAll(s, from, to);
      assert r[1..] == ReplaceAll(s[1..], from, to);
      assert r[0] == to <==> s[0] == from;
    }
  }

  /** The first significant character of a concatenation. */
  lemma {:induction false} FirstSignificantAppend(a: string, b: string)
    ensures FirstSignificant(a + b) ==
      (if FirstSignificant(a).Some? then FirstSignificant(a) else FirstSignificant(b))
  {
    if |a| == 0 {
      assert a + b == b;
    } else {
      assert (a + b)[0] == a[0];
      assert (a + b)[1..] == a[1..] + b;
      FirstSignificantAppend(a[1..], b);
    }
  }

  /** Skipping past a prefix that does not contain `c`. */
  lemma {:induction false} AfterFirstPrefix(a: string, b: string, c: char)
    requires c !in a
    ensures AfterFirst(a + [c] + b, c) == Some(b)
  {
    if |a| == 0 {
      assert a + [c] + b == [c] + b;
      assert ([c] + b)[1..] == b;
    } else {
      assert (a + [c] + b)[0] == a[0];
      assert (a + [c] + b)[1..] == a[1..] + [c] + b;
      AfterFirstPrefix(a[1..], b, c);
    }
  }

  /** A four-part join, written out. */
  lemma JoinFour(a: string, b: string, c: string, d: string, sep: string)
    ensures Join([a, b, c, d], sep) == a + sep + b + sep + c + sep + d
  {
    assert [c, d][1..] == [d];
    assert Join([c, d], sep) == c + sep + d;
    assert [b, c, d][1..] == [c, d];
    assert [a, b, c, d][1..] == [b, c, d];
    assert Join([b, c, d], sep) == b + sep + c + sep + d;
    assert Join([a, b, c, d], sep) == a + sep + (b + sep + c + sep + d);
  }

  /** ReplaceAll works piece by piece. */
  lemma {:induction false} ReplaceAllAppend(a: string, b: string, from: char, to: char)
    ensures ReplaceAll(a + b, from, to) == ReplaceAll(a, from, to) + ReplaceAll(b, from, to)
  {
    if |a| == 0 {
      assert a + b == b;
    } else {
      assert (a + b)[0] == a[0];
      assert (a + b)[1..] == a[1..] + b;
      ReplaceAllAppend(a[1..], b, from, to);
    }
  }

  /** ReplaceAll leaves text without `from` as it is. */
  lemma {:induction false} ReplaceAllFree(s: string, from: char, to: char)
    requires from !in s
    ensures ReplaceAll(s, from, to) == s
  {
    if |s| > 0 {
      ReplaceAllFree(s[1..], from, to);
      assert [s[0]] + s[1..] == s;
    }
  }
}
