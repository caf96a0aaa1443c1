/** String helpers with the meaning the JavaScript built-ins have where the kiosk code uses
    them: `trim`, the `/^[0-9]+$/` test, `toUpperCase`/`toLowerCase`, `join`/`split` on a
    one-character separator, and the decimal rendering of an integer. */
module Text {
  import opened Seqs

  /** The characters `String.prototype.trim` removes: white space and line terminators. */
  predicate IsWhitespace(c: char)
  {
    || c == ' ' || c == '\t' || c == '\n' || c == '\r'
    || c as int == 0x0B || c as int == 0x0C || c as int == 0xA0 || c as int == 0x1680
    || (0x2000 <= c as int <= 0x200A)
    || c as int == 0x2028 || c as int == 0x2029 || c as int == 0x202F
    || c as int == 0x205F || c as int == 0x3000 || c as int == 0xFEFF
  }

  predicate IsBlank(s: string)
  {
    forall i :: 0 <= i < |s| ==> IsWhitespace(s[i])
  }

  function TrimStart(s: string): (r: string)
    ensures |r| <= |s| && r == s[|s| - |r|..]
    ensures |r| > 0 ==> !IsWhitespace(r[0])
    ensures forall i :: 0 <= i < |s| - |r| ==> IsWhitespace(s[i])
  {
    if |s| > 0 && IsWhitespace(s[0]) then TrimStart(s[1..]) else s
  }

  function TrimEnd(s: string): (r: string)
    ensures |r| <= |s| && r == s[..|r|]
    ensures |r| > 0 ==> !IsWhitespace(r[|r| - 1])
    ensures forall i :: |r| <= i < |s| ==> IsWhitespace(s[i])
  {
    if |s| > 0 && IsWhitespace(s[|s| - 1]) then TrimEnd(s[..|s| - 1]) else s
  }

  /** Where the trimmed text starts inside the original. */
  function TrimOffset(s: string): (k: nat)
    ensures k <= |s|
  {
    |s| - |TrimStart(s)|
  }

  /** `s.trim()`: the infix of `s` left after dropping white space at both ends. */
  function Trim(s: string): (r: string)
    ensures TrimOffset(s) + |r| <= |s| && r == s[TrimOffset(s)..TrimOffset(s) + |r|]
    ensures |r| > 0 ==> !IsWhitespace(r[0]) && !IsWhitespace(r[|r| - 1])
    ensures r == "" <==> IsBlank(s)
  {
    var t := TrimStart(s);
    var r := TrimEnd(t);
    SliceOfSlice(s, |s| - |t|, |r|);
    r
  }

  predicate IsDigit(c: char)
  {
    '0' <= c <= '9'
  }

  /** The regular-expression test `/^[0-9]+$/`. */
  predicate IsAllDigits(s: string)
  {
    |s| > 0 && forall i :: 0 <= i < |s| ==> IsDigit(s[i])
  }

  /** Letters whose case mapping is one character to one character in ASCII and Latin-1. */
  predicate IsLowerLetter(c: char)
  {
    ('a' <= c <= 'z') || (0xE0 <= c as int <= 0xFE && c as int != 0xF7)
  }

  predicate IsUpperLetter(c: char)
  {
    ('A' <= c <= 'Z') || (0xC0 <= c as int <= 0xDE && c as int != 0xD7)
  }

  function UpperChar(c: char): (u: char)
    ensures IsLowerLetter(c) ==> IsUpperLetter(u)
    ensures !IsLowerLetter(c) ==> u == c
  {
    if IsLowerLetter(c) then (c as int - 0x20) as char else c
  }

  function LowerChar(c: char): (l: char)
    ensures IsUpperLetter(c) ==> IsLowerLetter(l)
    ensures !IsUpperLetter(c) ==> l == c
  {
    if IsUpperLetter(c) then (c as int + 0x20) as char else c
  }

  function Upper(s: string): (r: string)
    ensures |r| == |s|
    ensures forall i :: 0 <= i < |s| ==> r[i] == UpperChar(s[i])
  {
    seq(|s|, i requires 0 <= i < |s| => UpperChar(s[i]))
  }

  function Lower(s: string): (r: string)
    ensures |r| == |s|
    ensures forall i :: 0 <= i < |s| ==> r[i] == LowerChar(s[i])
  {
    seq(|s|, i requires 0 <= i < |s| => LowerChar(s[i]))
  }

  /** A string with no upper-case letter comes back unchanged from `Lower(Upper(_))`. */
  lemma LowerUpperRoundTrip(s: string)
    requires forall i :: 0 <= i < |s| ==> !IsUpperLetter(s[i])
    ensures Lower(Upper(s)) == s
  {
    var r := Lower(Upper(s));
    forall i | 0 <= i < |s|
      ensures r[i] == s[i]
    {
      if IsLowerLetter(s[i]) {
        assert LowerChar(UpperChar(s[i])) == s[i];
      }
    }
  }

  /** Case folding of the database's `LIKE`, which folds only the ASCII letters. */
  function AsciiLowerChar(c: char): (l: char)
    ensures 'A' <= c <= 'Z' ==> 'a' <= l <= 'z'
    ensures !('A' <= c <= 'Z') ==> l == c
  {
    if 'A' <= c <= 'Z' then (c as int + 0x20) as char else c
  }

  function AsciiLower(s: string): (r: string)
    ensures |r| == |s|
    ensures forall i :: 0 <= i < |s| ==> r[i] == AsciiLowerChar(s[i])
  {
    seq(|s|, i requires 0 <= i < |s| => AsciiLowerChar(s[i]))
  }

  /** `lines.join(sep)` for a one-character separator. */
  function Join(lines: seq<string>, sep: char): string
  {
    if |lines| == 0 then ""
    else if |lines| == 1 then lines[0]
    else lines[0] + [sep] + Join(lines[1..], sep)
  }

  /** Index of the first `sep` in `s`, or `|s|` when there is none. */
  function IndexOf(s: string, sep: char): (k: nat)
    ensures k <= |s|
    ensures forall i :: 0 <= i < k ==> s[i] != sep
    ensures k < |s| ==> s[k] == sep
  {
    if |s| == 0 then 0 else if s[0] == sep then 0 else 1 + IndexOf(s[1..], sep)
  }

  /** `s.split(sep)` for a one-character separator: always at least one piece. */
  function Split(s: string, sep: char): (pieces: seq<string>)
    ensures |pieces| >= 1
    decreases |s|
  {
    var k := IndexOf(s, sep);
    if k == |s| then [s] else [s[..k]] + Split(s[k + 1..], sep)
  }

  lemma SplitPrefix(a: string, sep: char, b: string)
    requires sep !in a
    ensures Split(a + [sep] + b, sep) == [a] + Split(b, sep)
  {
    var s := a + [sep] + b;
    IndexOfPrefix(a, sep, b);
    assert s[..|a|] == a;
    assert s[|a| + 1..] == b;
  }

  lemma IndexOfPrefix(a: string, sep: char, b: string)
    requires sep !in a
    ensures IndexOf(a + [sep] + b, sep) == |a|
  {
    if |a| > 0 {
      assert (a + [sep] + b)[1..] == a[1..] + [sep] + b;
      IndexOfPrefix(a[1..], sep, b);
    }
  }

  /** A character that is neither the separator nor in any piece is not in the join. */
  lemma {:induction false} JoinAvoids(lines: seq<string>, sep: char, c: char)
    requires c != sep
    requires forall j :: 0 <= j < |lines| ==> c !in lines[j]
    ensures c !in Join(lines, sep)
    decreases |lines|
  {
    if |lines| > 1 {
      JoinAvoids(lines[1..], sep, c);
    }
  }

  /** Splitting a join gives the pieces back, provided no piece holds the separator. */
  lemma {:induction false} SplitJoin(lines: seq<string>, sep: char)
    requires |lines| >= 1
    requires forall j :: 0 <= j < |lines| ==> sep !in lines[j]
    ensures Split(Join(lines, sep), sep) == lines
    decreases |lines|
  {
    if |lines| == 1 {
      assert IndexOf(lines[0], sep) == |lines[0]|;
    } else {
      SplitPrefix(lines[0], sep, Join(lines[1..], sep));
      SplitJoin(lines[1..], sep);
      assert lines == [lines[0]] + lines[1..];
    }
  }

  /** Joining the pieces of a split with the same separator gives the text back. */
  lemma {:induction false} JoinSplit(s: string, sep: char)
    ensures Join(Split(s, sep), sep) == s
    decreases |s|
  {
    var k := IndexOf(s, sep);
    if k < |s| {
      var a, b := s[..k], s[k + 1..];
      var rest := Split(b, sep);
      JoinSplit(b, sep);
      ConsTail(a, rest);
      SplitAt(s, k);
      assert Join([a] + rest, sep) == a + [sep] + Join(rest, sep);
    }
  }

  /** `s.replace(/c/g, '')`: every occurrence of `c` removed, the rest kept in order. */
  function RemoveChar(s: string, c: char): (r: string)
    ensures c !in r
    ensures |r| <= |s|
    ensures c !in s ==> r == s
  {
    if |s| == 0 then ""
    else
      var rest := RemoveChar(s[1..], c);
      if s[0] == c then rest else [s[0]] + rest
  }

  lemma {:induction false} RemoveCharAppend(a: string, b: string, c: char)
    ensures RemoveChar(a + b, c) == RemoveChar(a, c) + RemoveChar(b, c)
    decreases |a|
  {
    if |a| > 0 {
      assert (a + b)[1..] == a[1..] + b;
      RemoveCharAppend(a[1..], b, c);
    } else {
      assert a + b == b;
    }
  }

  /** `parts.join('')`. */
  function Concat(parts: seq<string>): string
  {
    if |parts| == 0 then "" else parts[0] + Concat(parts[1..])
  }

  /** A string splits into a single piece exactly when it holds no separator. */
  lemma SplitSingle(s: string, sep: char)
    ensures |Split(s, sep)| == 1 <==> sep !in s
  {
    var k := IndexOf(s, sep);
    if k < |s| {
      assert s[k] == sep;
    }
  }

  /** Deleting `sep` around one occurrence of it. */
  lemma RemoveCharAround(a: string, sep: char, b: string)
    requires sep !in a
    ensures RemoveChar(a + [sep] + b, sep) == a + RemoveChar(b, sep)
  {
    RemoveCharAppend(a + [sep], b, sep);
    RemoveCharAppend(a, [sep], sep);
    ConsTail(sep, []);
    AppendEmpty(a);
  }

  /** Gluing the pieces of a split back together is deleting the separators. */
  lemma {:induction false} ConcatSplit(s: string, sep: char)
    ensures Concat(Split(s, sep)) == RemoveChar(s, sep)
    decreases |s|
  {
    var k := IndexOf(s, sep);
    if k == |s| {
      assert Split(s, sep) == [s];
      assert Concat([s]) == s + Concat([]);
    } else {
      var a, b := s[..k], s[k + 1..];
      assert s == a + [sep] + b;
      assert Split(s, sep) == [a] + Split(b, sep);
      ConcatSplit(b, sep);
      calc {
        Concat(Split(s, sep));
        Concat([a] + Split(b, sep));
        { assert ([a] + Split(b, sep))[1..] == Split(b, sep); }
        a + Concat(Split(b, sep));
        a + RemoveChar(b, sep);
        { RemoveCharAround(a, sep, b); }
        RemoveChar(s, sep);
      }
    }
  }

  function DigitChar(d: nat): char
    requires d < 10
  {
    ('0' as int + d) as char
  }

  /** Decimal digits of a natural number, most significant first, no leading zeros. */
  function NatToString(n: nat): (s: string)
    ensures IsAllDigits(s)
    ensures |s| > 1 ==> s[0] != '0'
  {
    if n < 10 then [DigitChar(n)] else NatToString(n / 10) + [DigitChar(n % 10)]
  }

  /** `String(n)` for an integer-valued JavaScript number. */
  function IntToString(n: int): (s: string)
    ensures |s| > 0
    ensures forall i :: 0 <= i < |s| ==> IsDigit(s[i]) || (i == 0 && s[i] == '-')
  {
    if n < 0 then "-" + NatToString(-n) else NatToString(n)
  }

  function DigitValue(c: char): nat
    requires IsDigit(c)
  {
    c as int - '0' as int
  }

  /** Reading the digits back gives the number: the rendering loses nothing. */
  function ParseNat(s: string): nat
    requires forall i :: 0 <= i < |s| ==> IsDigit(s[i])
  {
    if |s| == 0 then 0 else 10 * ParseNat(s[..|s| - 1]) + DigitValue(s[|s| - 1])
  }

  lemma {:induction false} ParseNatToString(n: nat)
    ensures ParseNat(NatToString(n)) == n
  {
    if n >= 10 {
      var s := NatToString(n);
      assert s[..|s| - 1] == NatToString(n / 10);
      ParseNatToString(n / 10);
    }
  }

  /** `haystack.includes(needle)`. */
  predicate Contains(haystack: string, needle: string)
  {
    exists k :: 0 <= k <= |haystack| - |needle| && OccursAt(haystack, needle, k)
  }

  predicate OccursAt(haystack: string, needle: string, k: int)
  {
    0 <= k <= |haystack| - |needle| && haystack[k..k + |needle|] == needle
  }
}
