/** The string primitives of Python that the core relies on: `str.strip`,
    `str.lower`, `in` on strings, `str.split` and `str.join` on a one-character
    separator, and `str.replace` of one character. Strings are sequences of
    Unicode code points, as in Python. */
module Text {
  import opened Wrappers

  /** Python's `str.isspace` for a single code point. */
  predicate IsSpace(c: char)
  {
    c == ' ' || ('\t' <= c <= '\r') || ('\U{1c}' <= c <= '\U{1f}') || c == '\U{85}' || c == '\U{a0}'
    || c == '\U{1680}' || ('\U{2000}' <= c <= '\U{200a}') || c == '\U{2028}' || c == '\U{2029}'
    || c == '\U{202f}' || c == '\U{205f}' || c == '\U{3000}'
  }

  /** How many whitespace characters `s` starts with. */
  function LeadingSpace(s: string): (n: nat)
    ensures n <= |s|
    ensures forall k :: 0 <= k < n ==> IsSpace(s[k])
    ensures n < |s| ==> !IsSpace(s[n])
    decreases |s|
  {
    if |s| > 0 && IsSpace(s[0]) then 1 + LeadingSpace(s[1..]) else 0
  }

  /** The length of `s` without its trailing whitespace. */
  function TrailingEnd(s: string): (n: nat)
    ensures n <= |s|
    ensures forall k :: n <= k < |s| ==> IsSpace(s[k])
    ensures n > 0 ==> !IsSpace(s[n - 1])
    decreases |s|
  {
    if |s| > 0 && IsSpace(s[|s| - 1]) then TrailingEnd(s[..|s| - 1]) else |s|
  }

  /** `str.strip()`: the part of `s` between its leading and its trailing
      whitespace; "" when `s` is all whitespace. */
  function Strip(s: string): (r: string)
    ensures |r| <= |s|
    ensures r == [] || (!IsSpace(r[0]) && !IsSpace(r[|r| - 1]))
  {
    var a, b := LeadingSpace(s), TrailingEnd(s);
    if a < b then s[a..b] else ""
  }

  /** `s.strip()` is `s` with a run of whitespace cut off each end and nothing
      else taken out; with the ensures of `Strip` (neither end of the result
      is whitespace) this fixes the result. */
  lemma StripTrims(s: string)
    ensures exists a, b ::
              0 <= a <= b <= |s| && Strip(s) == s[a..b]
              && (forall k :: 0 <= k < a ==> IsSpace(s[k]))
              && (forall k :: b <= k < |s| ==> IsSpace(s[k]))
  {
    var a, b := LeadingSpace(s), TrailingEnd(s);
    if a < b {
      assert Strip(s) == s[a..b];
    } else {
      assert forall k :: 0 <= k < |s| ==> IsSpace(s[k]);
      assert Strip(s) == s[|s|..|s|];
    }
  }

  /** A character absent from `s` is absent from `s.strip()`. */
  lemma StripAvoids(s: string, c: char)
    requires c !in s
    ensures c !in Strip(s)
  {
  }

  /** Stripping a string that has no surrounding whitespace leaves it as it is;
      in particular stripping twice is stripping once. */
  lemma StripNoop(s: string)
    requires s == [] || (!IsSpace(s[0]) && !IsSpace(s[|s| - 1]))
    ensures Strip(s) == s
  {
  }

  lemma StripIdempotent(s: string)
    ensures Strip(Strip(s)) == Strip(s)
  {
    StripNoop(Strip(s));
  }

  /** The capital letters `str.lower` changes, in the blocks modelled:
      ASCII, Latin-1 (U+00C0..U+00DE except U+00D7), Cyrillic and Cyrillic
      Supplement (U+0400..U+052F; from U+0460 on capitals and small letters
      alternate, with U+04C0 as the one exception). */
  predicate IsUpper(c: char)
  {
    'A' <= c <= 'Z'
    || ('\U{00C0}' <= c <= '\U{00DE}' && c != '\U{00D7}')
    || '\U{0400}' <= c <= '\U{042F}'
    || c == '\U{04C0}'
    || (('\U{0460}' <= c <= '\U{0480}' || '\U{048A}' <= c <= '\U{04BE}' || '\U{04D0}' <= c <= '\U{052E}')
        && (c as int) % 2 == 0)
    || ('\U{04C1}' <= c <= '\U{04CD}' && (c as int) % 2 == 1)
  }

  /** Python's `str.lower` on one code point of the blocks above; every
      other code point is returned unchanged. */
  function LowerChar(c: char): (r: char)
    ensures !IsUpper(r)
    ensures !IsUpper(c) ==> r == c
    ensures IsUpper(c) ==> r != c
  {
    if 'A' <= c <= 'Z' || ('\U{00C0}' <= c <= '\U{00DE}' && c != '\U{00D7}') then ((c as int) + 0x20) as char
    else if '\U{0400}' <= c <= '\U{040F}' then ((c as int) + 0x50) as char
    else if '\U{0410}' <= c <= '\U{042F}' then ((c as int) + 0x20) as char
    else if c == '\U{04C0}' then '\U{04CF}'
    else if IsUpper(c) then ((c as int) + 1) as char
    else c
  }

  /** `str.lower()`: same length, no capital left, and every character that
      is not a capital kept where it was. */
  function Lower(s: string): (r: string)
    ensures |r| == |s|
    ensures forall i :: 0 <= i < |r| ==> !IsUpper(r[i])
    ensures forall i :: 0 <= i < |s| && !IsUpper(s[i]) ==> r[i] == s[i]
    ensures forall i :: 0 <= i < |s| && IsUpper(s[i]) ==> r[i] != s[i]
  {
    seq(|s|, i requires 0 <= i < |s| => LowerChar(s[i]))
  }

  /** The Uzbek Cyrillic capitals fold to their small letters. */
  lemma LowerUzbek()
    ensures Lower("\U{049A}\U{0492}\U{04B2}\U{040E}") == "\U{049B}\U{0493}\U{04B3}\U{045E}"
  {
  }

  lemma LowerIdempotent(s: string)
    ensures Lower(Lower(s)) == Lower(s)
  {
  }

  /** Python's `w in s` for strings: `w` occurs in `s` as a contiguous part. */
  predicate Contains(s: string, w: string)
    decreases |s|
  {
    (|w| <= |s| && s[..|w|] == w) || (|s| > 0 && Contains(s[1..], w))
  }

  /** The index of the first `c` in `s`, as `str.find` reports it. */
  function Find(s: string, c: char): (r: Option<nat>)
    ensures r.Some? ==> r.value < |s| && s[r.value] == c && c !in s[..r.value]
    ensures r.None? <==> c !in s
  {
    if |s| == 0 then None
    else if s[0] == c then Some(0)
    else match Find(s[1..], c)
      case None => None
      case Some(i) => Some(i + 1)
  }

  /** `sep.join(parts)` for a one-character separator. */
  function Join(parts: seq<string>, sep: char): string
  {
    if |parts| == 0 then ""
    else if |parts| == 1 then parts[0]
    else parts[0] + [sep] + Join(parts[1..], sep)
  }

  lemma Join3(a: string, b: string, c: string, sep: char)
    ensures Join([a, b, c], sep) == a + [sep] + b + [sep] + c
  {
    assert [a, b, c][1..] == [b, c];
    assert [b, c][1..] == [c];
    assert Join([c], sep) == c;
    assert Join([b, c], sep) == b + [sep] + c;
    assert Join([a, b, c], sep) == a + [sep] + (b + [sep] + c);
  }

  /** `s.split(sep)` for a one-character separator: the maximal parts of `s`
      that do not contain `sep`. */
  function Split(s: string, sep: char): (parts: seq<string>)
    ensures |parts| >= 1
    ensures forall k :: 0 <= k < |parts| ==> sep !in parts[k]
    decreases |s|
  {
    match Find(s, sep)
    case None => [s]
    case Some(i) => [s[..i]] + Split(s[i + 1..], sep)
  }

  /** Splitting a joined list gives the list back when no part contains the
      separator. */
  lemma {:induction false} SplitJoin(parts: seq<string>, sep: char)
    requires |parts| >= 1
    requires forall k :: 0 <= k < |parts| ==> sep !in parts[k]
    ensures Split(Join(parts, sep), sep) == parts
    decreases |parts|
  {
    if |parts| > 1 {
      var s := Join(parts, sep);
      var p := parts[0];
      assert s == p + [sep] + Join(parts[1..], sep);
      assert s[..|p|] == p && s[|p|] == sep;
      assert Find(s, sep) == Some(|p|) by {
        assert sep !in s[..|p|];
      }
      assert s[|p| + 1..] == Join(parts[1..], sep);
      SplitJoin(parts[1..], sep);
      assert parts == [p] + parts[1..];
    }
  }

  /** `s.replace(c, rep)` for a single character `c`. */
  function Replace(s: string, c: char, rep: string): (r: string)
    ensures c !in rep ==> c !in r
  {
    if |s| == 0 then ""
    else (if s[0] == c then rep else [s[0]]) + Replace(s[1..], c, rep)
  }

  lemma {:induction false} ReplaceAppend(a: string, b: string, c: char, rep: string)
    ensures Replace(a + b, c, rep) == Replace(a, c, rep) + Replace(b, c, rep)
    decreases |a|
  {
    if |a| > 0 {
      assert (a + b)[1..] == a[1..] + b;
      ReplaceAppend(a[1..], b, c, rep);
    } else {
      assert a + b == b;
    }
  }

  /** A character absent from `s` and from the replacement stays absent. */
  lemma {:induction false} ReplaceKeepsOut(s: string, c: char, rep: string, d: char)
    requires d !in s && d !in rep
    ensures d !in Replace(s, c, rep)
    decreases |s|
  {
    if |s| > 0 {
      assert s[0] != d;
      ReplaceKeepsOut(s[1..], c, rep, d);
    }
  }

  /** Replacing a character that does not occur changes nothing. */
  lemma {:induction false} ReplaceNoop(s: string, c: char, rep: string)
    requires c !in s
    ensures Replace(s, c, rep) == s
    decreases |s|
  {
    if |s| > 0 {
      ReplaceNoop(s[1..], c, rep);
      assert s == [s[0]] + s[1..];
    }
  }

  /** `Find` reports the first occurrence. */
  lemma FindAt(s: string, c: char, i: nat)
    requires i < |s| && s[i] == c && c !in s[..i]
    ensures Find(s, c) == Some(i)
  {
    assert s[i] in s;
  }
}
