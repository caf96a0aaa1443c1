/** The money input field: every keystroke is cleaned to digits, commas and at most one dot, the
    whole part is regrouped with a comma every three digits from the right, the fraction is kept
    as typed, and the cleaned text without commas is what the field reports upwards. */
module CurrencyInput {
  import opened Text
  import opened Seqs

  predicate Allowed(c: char)
  {
    IsDigit(c) || c == '.' || c == ','
  }

  predicate AllAllowed(s: string)
  {
    forall i :: 0 <= i < |s| ==> Allowed(s[i])
  }

  /** `replace(/[^0-9.,]/g, '')`: the disallowed letters dropped, the rest kept in order. */
  function Sanitize(s: string): (r: string)
    ensures AllAllowed(r)
    ensures |r| <= |s|
    ensures AllAllowed(s) ==> r == s
  {
    if |s| == 0 then ""
    else
      var rest := Sanitize(s[1..]);
      if Allowed(s[0]) then [s[0]] + rest else rest
  }

  /** No dot after the first one. */
  predicate AtMostOneDot(s: string)
  {
    var k := IndexOf(s, '.');
    k == |s| || '.' !in s[k + 1..]
  }

  /** The text the guards let through: allowed letters only, one dot at most. */
  predicate Clean(s: string)
  {
    AllAllowed(s) && AtMostOneDot(s)
  }

  /** In `a + "." + b` with no dot in `a`, the first dot is the one after `a`. */
  lemma FirstDot(a: string, b: string)
    requires '.' !in a
    ensures var s := a + ['.'] + b;
      IndexOf(s, '.') == |a| && s[..|a|] == a && s[|a| + 1..] == b
  {
    IndexOfPrefix(a, '.', b);
    AroundOne(a, '.', b);
  }

  /** A text with a dot is the part before its first dot, the dot, and the rest. */
  lemma AroundFirstDot(s: string)
    requires IndexOf(s, '.') < |s|
    ensures var k := IndexOf(s, '.');
      s == s[..k] + ['.'] + s[k + 1..] && '.' !in s[..k]
  {
    var k := IndexOf(s, '.');
    SplitAt(s, k);
    PrefixAvoids(s, k, '.');
  }

  /** The multiple-dot guard: with more than two dot-separated pieces, the first piece, one dot
      and the remaining pieces glued together. */
  function CollapseDots(s: string): string
  {
    var parts := Split(s, '.');
    if |parts| > 2 then parts[0] + "." + Concat(parts[1..]) else s
  }

  lemma CollapseWithoutDot(s: string)
    requires '.' !in s
    ensures CollapseDots(s) == s
  {
    SplitSingle(s, '.');
  }

  lemma CollapseOneDot(a: string, b: string)
    requires '.' !in a && '.' !in b
    ensures CollapseDots(a + ['.'] + b) == a + ['.'] + b
  {
    SplitPrefix(a, '.', b);
    SplitSingle(b, '.');
  }

  lemma CollapseManyDots(a: string, b: string)
    requires '.' !in a && '.' in b
    ensures CollapseDots(a + ['.'] + b) == a + ['.'] + RemoveChar(b, '.')
  {
    var parts := Split(a + ['.'] + b, '.');
    SplitPrefix(a, '.', b);
    SplitSingle(b, '.');
    assert parts[1..] == Split(b, '.');
    ConcatSplit(b, '.');
  }

  /** The guard keeps everything up to the first dot and drops every later dot. */
  lemma CollapseDotsKeepsFirstDot(s: string)
    ensures var k := IndexOf(s, '.');
      CollapseDots(s) == if k == |s| then s else s[..k + 1] + RemoveChar(s[k + 1..], '.')
  {
    var k := IndexOf(s, '.');
    if k == |s| {
      CollapseWithoutDot(s);
    } else {
      AroundFirstDot(s);
      var a, b := s[..k], s[k + 1..];
      assert s[..k + 1] == a + ['.'];
      if '.' in b {
        CollapseManyDots(a, b);
      } else {
        CollapseOneDot(a, b);
      }
    }
  }

  /** After the guard at most one dot is left. */
  lemma CollapseDotsLeavesOneDot(s: string)
    ensures AtMostOneDot(CollapseDots(s))
  {
    CollapseDotsKeepsFirstDot(s);
    var k := IndexOf(s, '.');
    if k < |s| {
      AroundFirstDot(s);
      FirstDot(s[..k], RemoveChar(s[k + 1..], '.'));
      assert s[..k + 1] == s[..k] + ['.'];
    }
  }

  lemma {:induction false} RemoveCharAllowed(s: string, c: char)
    requires AllAllowed(s)
    ensures AllAllowed(RemoveChar(s, c))
    decreases |s|
  {
    if |s| > 0 {
      assert AllAllowed(s[1..]);
      RemoveCharAllowed(s[1..], c);
    }
  }

  lemma {:induction false} RemoveCharKeepsAbsent(s: string, c: char, x: char)
    requires x !in s
    ensures x !in RemoveChar(s, c)
    decreases |s|
  {
    if |s| > 0 {
      assert x !in s[1..];
      RemoveCharKeepsAbsent(s[1..], c, x);
    }
  }

  /** The guard lets only allowed letters through when it is given only those. */
  lemma CollapseDotsAllowed(s: string)
    requires AllAllowed(s)
    ensures AllAllowed(CollapseDots(s))
  {
    CollapseDotsKeepsFirstDot(s);
    var k := IndexOf(s, '.');
    if k < |s| {
      assert AllAllowed(s[k + 1..]);
      RemoveCharAllowed(s[k + 1..], '.');
    }
  }

  /** Whatever is typed, the two cleaning steps leave a clean text. */
  lemma CleanInputIsClean(typed: string)
    ensures Clean(CollapseDots(Sanitize(typed)))
  {
    CollapseDotsLeavesOneDot(Sanitize(typed));
    CollapseDotsAllowed(Sanitize(typed));
  }

  /** A clean text passes the cleaning steps unchanged. */
  lemma CleanIsFixed(s: string)
    requires Clean(s)
    ensures CollapseDots(Sanitize(s)) == s
  {
    var k := IndexOf(s, '.');
    if k == |s| {
      CollapseWithoutDot(s);
    } else {
      AroundFirstDot(s);
      CollapseOneDot(s[..k], s[k + 1..]);
    }
  }

  /** Digits in the leading group of an `n`-digit number. */
  function Lead(n: nat): (h: nat)
    ensures n >= 1 ==> 1 <= h <= 3 && h <= n
    ensures n == 0 ==> h == 0
  {
    if n <= 3 then n else Lead(n - 3)
  }

  /** The leading group holds `(n - 1) % 3 + 1` digits. */
  lemma {:induction false} LeadIsRemainder(n: nat)
    requires n >= 1
    ensures Lead(n) == (n - 1) % 3 + 1
  {
    if n > 3 {
      LeadIsRemainder(n - 3);
    }
  }

  /** After the leading group only whole groups of three remain. */
  lemma {:induction false} LeadLeavesTriples(n: nat)
    requires n > 3
    ensures Lead(n - Lead(n)) == 3
    decreases n
  {
    if n - 3 > 3 {
      LeadLeavesTriples(n - 3);
      assert n - Lead(n) == (n - 3 - Lead(n - 3)) + 3;
    }
  }

  /** The digit groups of a whole part: a leading group of `Lead(|d|)` digits, then groups of
      three. */
  function Chunks(d: string): (r: seq<string>)
    ensures |r| >= 1
    decreases |d|
  {
    if |d| <= 3 then [d] else [d[..Lead(|d|)]] + Chunks(d[Lead(|d|)..])
  }

  /** `replace(/\B(?=(\d{3})+(?!\d))/g, ',')` on a digit string: a comma at every inner
      position followed by a positive multiple of three digits, that is, between the groups. */
  function Group(d: string): string
  {
    Join(Chunks(d), ',')
  }

  /** The groups, glued together, are the digits. */
  lemma {:induction false} ChunksConcat(d: string)
    ensures Concat(Chunks(d)) == d
    decreases |d|
  {
    if |d| <= 3 {
      assert Concat([d]) == d + Concat([]);
    } else {
      var h := Lead(|d|);
      var rest := Chunks(d[h..]);
      ChunksConcat(d[h..]);
      assert ([d[..h]] + rest)[1..] == rest;
      assert d == d[..h] + d[h..];
    }
  }

  /** The leading group has `Lead(|d|)` digits and every later one exactly three. */
  lemma {:induction false} ChunksSizes(d: string)
    ensures |Chunks(d)[0]| == Lead(|d|)
    ensures forall j :: 1 <= j < |Chunks(d)| ==> |Chunks(d)[j]| == 3
    decreases |d|
  {
    if |d| > 3 {
      var h := Lead(|d|);
      LeadLeavesTriples(|d|);
      ChunksSizes(d[h..]);
      var c, rest := Chunks(d), Chunks(d[h..]);
      assert forall j :: 1 <= j < |c| ==> c[j] == rest[j - 1];
    }
  }

  /** A letter absent from the digits is absent from every group. */
  lemma {:induction false} ChunksAvoid(d: string, x: char)
    requires x !in d
    ensures forall j :: 0 <= j < |Chunks(d)| ==> x !in Chunks(d)[j]
    decreases |d|
  {
    if |d| > 3 {
      var h := Lead(|d|);
      assert x !in d[..h] && x !in d[h..];
      ChunksAvoid(d[h..], x);
      var c, rest := Chunks(d), Chunks(d[h..]);
      assert forall j :: 1 <= j < |c| ==> c[j] == rest[j - 1];
    }
  }

  /** Seven digits group as one, three and three. */
  lemma GroupSevenDigits()
    ensures Group("1234567") == "1,234,567"
  {
    var d := "1234567";
    assert Lead(7) == 1 && Lead(6) == 3;
    assert d[..1] == "1" && d[1..] == "234567";
    var e := "234567";
    assert e[..3] == "234" && e[3..] == "567";
    assert Chunks("567") == ["567"];
    assert Chunks(e) == ["234"] + ["567"];
    assert Chunks(d) == ["1"] + ["234", "567"];
    assert Join(["567"], ',') == "567";
    assert Join(["234", "567"], ',') == "234" + [','] + "567";
  }

  /** Splitting a grouping at its commas gives the groups back. */
  lemma GroupSplit(d: string)
    requires ',' !in d
    ensures Split(Group(d), ',') == Chunks(d)
  {
    ChunksAvoid(d, ',');
    SplitJoin(Chunks(d), ',');
  }

  /** Removing the commas from a grouping gives the digits back. */
  lemma GroupRemoveCommas(d: string)
    requires ',' !in d
    ensures RemoveChar(Group(d), ',') == d
  {
    ConcatSplit(Group(d), ',');
    GroupSplit(d);
    ChunksConcat(d);
  }

  /** A grouping holds only the digits' letters and commas. */
  lemma GroupChars(d: string, c: char)
    requires c != ',' && c !in d
    ensures c !in Group(d)
  {
    ChunksAvoid(d, c);
    JoinAvoids(Chunks(d), ',', c);
  }

  lemma GroupAllowed(d: string)
    requires AllAllowed(d)
    ensures AllAllowed(Group(d))
  {
    var g := Group(d);
    forall i | 0 <= i < |g|
      ensures Allowed(g[i])
    {
      if !Allowed(g[i]) {
        assert g[i] !in d;
        GroupChars(d, g[i]);
        assert false;
      }
    }
  }

  /** The display text for a cleaned input: the whole part regrouped, the pieces after the
      first dot joined back as they were. */
  function FormatDisplay(input: string): string
  {
    var parts := Split(input, '.');
    Join([Group(RemoveChar(parts[0], ','))] + parts[1..], '.')
  }

  lemma FormatWithoutDot(input: string)
    requires '.' !in input
    ensures FormatDisplay(input) == Group(RemoveChar(input, ','))
  {
    SplitSingle(input, '.');
  }

  lemma FormatWithDot(a: string, b: string)
    requires '.' !in a
    ensures FormatDisplay(a + ['.'] + b) == Group(RemoveChar(a, ',')) + ['.'] + b
  {
    SplitPrefix(a, '.', b);
    var g := Group(RemoveChar(a, ','));
    var rest := Split(b, '.');
    ConsTail(a, rest);
    ConsTail(g, rest);
    JoinSplit(b, '.');
  }

  /** Only the part before the first dot changes: its commas are redone, and everything from
      the first dot on comes through verbatim. */
  lemma FormatDisplayShape(input: string)
    ensures var k := IndexOf(input, '.');
      FormatDisplay(input) == Group(RemoveChar(input[..k], ',')) + input[k..]
  {
    var k := IndexOf(input, '.');
    SliceAll(input);
    if k == |input| {
      FormatWithoutDot(input);
    } else {
      AroundFirstDot(input);
      SplitAt(input, k);
      FormatWithDot(input[..k], input[k + 1..]);
    }
  }

  /** The facts about a clean input's display that the properties below rely on. */
  lemma CleanShape(input: string)
    requires Clean(input)
    ensures var k := IndexOf(input, '.');
      var w := RemoveChar(input[..k], ',');
      && ',' !in w && '.' !in w
      && '.' !in Group(w) && AllAllowed(Group(w))
      && RemoveChar(Group(w), ',') == w
      && FormatDisplay(input) == Group(w) + input[k..]
  {
    var k := IndexOf(input, '.');
    var a := input[..k];
    assert '.' !in a;
    assert AllAllowed(a);
    var w := RemoveChar(a, ',');
    RemoveCharKeepsAbsent(a, ',', '.');
    RemoveCharAllowed(a, ',');
    GroupChars(w, '.');
    GroupAllowed(w);
    GroupRemoveCommas(w);
    FormatDisplayShape(input);
  }

  /** The display of a clean input is itself clean. */
  lemma FormatKeepsClean(input: string)
    requires Clean(input)
    ensures Clean(FormatDisplay(input))
  {
    CleanShape(input);
    var k := IndexOf(input, '.');
    var g := Group(RemoveChar(input[..k], ','));
    SliceAll(input);
    if k < |input| {
      SplitAt(input, k);
      var f := input[k + 1..];
      assert AllAllowed(f);
      DotJoinClean(g, f);
    }
  }

  /** A dot-free allowed whole part, a dot and a dot-free allowed fraction make a clean text. */
  lemma DotJoinClean(g: string, f: string)
    requires '.' !in g && '.' !in f
    requires AllAllowed(g) && AllAllowed(f)
    ensures Clean(g + ['.'] + f)
  {
    FirstDot(g, f);
  }

  lemma GroupIsStable(w: string)
    requires ',' !in w && '.' !in w
    ensures FormatDisplay(Group(w)) == Group(w)
  {
    GroupChars(w, '.');
    FormatWithoutDot(Group(w));
    GroupRemoveCommas(w);
  }

  lemma GroupDotIsStable(w: string, f: string)
    requires ',' !in w && '.' !in w
    ensures FormatDisplay(Group(w) + ['.'] + f) == Group(w) + ['.'] + f
  {
    GroupChars(w, '.');
    FormatWithDot(Group(w), f);
    GroupRemoveCommas(w);
  }

  /** Formatting a display a second time changes nothing. */
  lemma FormatIsStable(input: string)
    requires Clean(input)
    ensures FormatDisplay(FormatDisplay(input)) == FormatDisplay(input)
  {
    CleanShape(input);
    var k := IndexOf(input, '.');
    var w := RemoveChar(input[..k], ',');
    SliceAll(input);
    if k == |input| {
      AppendEmpty(Group(w));
      GroupIsStable(w);
    } else {
      SplitAt(input, k);
      Assoc(Group(w), ['.'], input[k + 1..]);
      GroupDotIsStable(w, input[k + 1..]);
    }
  }

  /** What the field reports upwards: nothing (the text is not a number), zero, or the number
      written by the cleaned text without its commas. */
  datatype Report = NoReport | ReportZero | ReportNumber(raw: string)

  datatype Change = Change(display: string, report: Report)

  /** Whether `parseFloat` finds a number at the start of a text of digits and at most one dot:
      a digit, or a dot followed by a digit. */
  predicate ParsesAsNumber(raw: string)
  {
    |raw| > 0 && (IsDigit(raw[0]) || (|raw| > 1 && raw[0] == '.' && IsDigit(raw[1])))
  }

  /** `handleChange`: an empty text or a lone dot reports zero and is shown as it is; any other
      text is shown formatted and reported when it reads as a number. */
  function HandleChange(typed: string): (c: Change)
    ensures var input := CollapseDots(Sanitize(typed));
      (input == "" || input == ".") ==> c == Change(input, ReportZero)
    ensures var input := CollapseDots(Sanitize(typed));
      !(input == "" || input == ".") ==>
        && c.report != ReportZero
        && (c.report.ReportNumber? <==> ParsesAsNumber(RemoveChar(input, ',')))
        && (c.report.ReportNumber? ==> c.report.raw == RemoveChar(input, ','))
    ensures c.report == ReportZero ==> c.display in {"", "."}
    ensures c.report.ReportNumber? ==> ',' !in c.report.raw && ParsesAsNumber(c.report.raw)
  {
    var input := CollapseDots(Sanitize(typed));
    var raw := RemoveChar(input, ',');
    if input == "" || input == "." then Change(input, ReportZero)
    else Change(FormatDisplay(input), if ParsesAsNumber(raw) then ReportNumber(raw) else NoReport)
  }

  /** Whatever is typed, the field shows only allowed letters and at most one dot. */
  lemma HandleChangeClean(typed: string)
    ensures Clean(HandleChange(typed).display)
  {
    var input := CollapseDots(Sanitize(typed));
    CleanInputIsClean(typed);
    if !(input == "" || input == ".") {
      FormatKeepsClean(input);
    }
  }

  /** Formatting changes only commas. */
  lemma FormatKeepsDigits(input: string)
    requires Clean(input)
    ensures RemoveChar(FormatDisplay(input), ',') == RemoveChar(input, ',')
  {
    CleanShape(input);
    var k := IndexOf(input, '.');
    var a, tail := input[..k], input[k..];
    var w := RemoveChar(a, ',');
    RemoveCharAppend(Group(w), tail, ',');
    RemoveCharAppend(a, tail, ',');
    SplitOff(input, k);
  }


  /** The shown text and the reported one differ only in commas: the number reported is the
      one on screen. */
  lemma DisplayMatchesReport(typed: string)
    ensures var c := HandleChange(typed);
      var input := CollapseDots(Sanitize(typed));
      && RemoveChar(c.display, ',') == RemoveChar(input, ',')
      && (c.report.ReportNumber? ==> c.report.raw == RemoveChar(c.display, ','))
  {
    var input := CollapseDots(Sanitize(typed));
    if !(input == "" || input == ".") {
      CleanInputIsClean(typed);
      FormatKeepsDigits(input);
    }
  }

  /** A clean text typed into the field is shown formatted, or as it is when empty or a lone
      dot. */
  lemma CleanDisplay(s: string)
    requires Clean(s)
    ensures HandleChange(s).display == if s == "" || s == "." then s else FormatDisplay(s)
  {
    CleanIsFixed(s);
  }

  /** Formatting the field's own output again changes nothing, so the text the user keeps
      editing is stable. */
  lemma HandleChangeIdempotent(typed: string)
    ensures var out := HandleChange(typed).display;
      HandleChange(out).display == out
  {
    var input := CollapseDots(Sanitize(typed));
    var out := HandleChange(typed).display;
    HandleChangeClean(typed);
    CleanDisplay(out);
    if !(input == "" || input == ".") {
      CleanInputIsClean(typed);
      FormatIsStable(input);
    }
  }
}
