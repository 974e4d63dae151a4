/** The Python `str` operations the pipeline relies on: `strip()`, `split()`
    without a separator (runs of whitespace), `split(sep)` on one character,
    `sep.join(parts)`, and the "split on commas, trim, drop blanks"
    comprehension used for topics and URLs. */
module PyStr {
  import opened PyValues

  /** The code-point ranges, inclusive, that `str.isspace()` accepts:
      tab through carriage return, the separators 0x1C-0x1F and the space,
      next line, no-break space, and the Unicode space separators. */
  const SpaceRanges: seq<(char, char)> := [
    ('\t', '\r'), ('\U{1C}', ' '), ('\U{85}', '\U{85}'), ('\U{A0}', '\U{A0}'),
    ('\U{1680}', '\U{1680}'), ('\U{2000}', '\U{200A}'), ('\U{2028}', '\U{2029}'),
    ('\U{202F}', '\U{202F}'), ('\U{205F}', '\U{205F}'), ('\U{3000}', '\U{3000}')]

  predicate InRanges(c: char, ranges: seq<(char, char)>) {
    ranges != [] && ((ranges[0].0 <= c <= ranges[0].1) || InRanges(c, ranges[1..]))
  }

  /** `c.isspace()` for one code point. */
  predicate IsSpace(c: char) {
    InRanges(c, SpaceRanges)
  }

  lemma SpaceIsSpace()
    ensures IsSpace(' ')
  {
    assert SpaceRanges[1..][0] == ('\U{1C}', ' ');
  }

  lemma {:induction false} BelowRanges(c: char, ranges: seq<(char, char)>)
    requires forall k :: 0 <= k < |ranges| ==> c < ranges[k].0
    ensures !InRanges(c, ranges)
    decreases |ranges|
  {
    if ranges != [] {
      BelowRanges(c, ranges[1..]);
    }
  }

  /** Below 0x80 the whitespace is tab through carriage return, the
      separators 0x1C-0x1F, and the space. */
  lemma AsciiSpace(c: char)
    requires c < '\U{80}'
    ensures IsSpace(c) <==> ('\t' <= c <= '\r' || '\U{1C}' <= c <= ' ')
  {
    var rest := SpaceRanges[2..];
    assert SpaceRanges[1..][1..] == rest;
    assert SpaceRanges[0] == ('\t', '\r') && SpaceRanges[1..][0] == ('\U{1C}', ' ');
    assert IsSpace(c) == (('\t' <= c <= '\r') || InRanges(c, SpaceRanges[1..]));
    assert InRanges(c, SpaceRanges[1..]) == (('\U{1C}' <= c <= ' ') || InRanges(c, rest));
    BelowRanges(c, rest);
  }

  predicate AllSpace(s: string) {
    forall i :: 0 <= i < |s| ==> IsSpace(s[i])
  }

  // ---------------------------------------------------------------------
  // strip()

  /** How many whitespace characters `s` starts with. */
  function LeadingSpaces(s: string): (n: nat)
    ensures n <= |s|
  {
    if s != [] && IsSpace(s[0]) then 1 + LeadingSpaces(s[1..]) else 0
  }

  /** How many whitespace characters `s` ends with. */
  function TrailingSpaces(s: string): (n: nat)
    ensures n <= |s|
  {
    if s != [] && IsSpace(s[|s| - 1]) then 1 + TrailingSpaces(s[..|s| - 1]) else 0
  }

  /** `s.lstrip()` */
  function LStrip(s: string): string {
    s[LeadingSpaces(s)..]
  }

  /** `s.rstrip()` */
  function RStrip(s: string): string {
    s[..|s| - TrailingSpaces(s)]
  }

  /** lstrip() removes exactly the leading whitespace. */
  lemma {:induction false} LStripFacts(s: string)
    ensures LStrip(s) == [] || !IsSpace(LStrip(s)[0])
    ensures AllSpace(s[..LeadingSpaces(s)])
    decreases |s|
  {
    if s != [] && IsSpace(s[0]) {
      LStripFacts(s[1..]);
      var n := LeadingSpaces(s);
      assert s[n..] == s[1..][n - 1..];
      assert s[..n] == [s[0]] + s[1..][..n - 1];
    }
  }

  /** rstrip() removes exactly the trailing whitespace. */
  lemma {:induction false} RStripFacts(s: string)
    ensures RStrip(s) == [] || !IsSpace(RStrip(s)[|RStrip(s)| - 1])
    ensures AllSpace(s[|s| - TrailingSpaces(s)..])
    decreases |s|
  {
    if s != [] && IsSpace(s[|s| - 1]) {
      var init := s[..|s| - 1];
      RStripFacts(init);
      var n := |s| - TrailingSpaces(s);
      assert s[..n] == init[..n];
      assert s[n..] == init[n..] + [s[|s| - 1]];
    }
  }

  /** `s.strip()` */
  function Strip(s: string): string {
    RStrip(LStrip(s))
  }

  /** A string equal to its own `strip()`. */
  predicate Stripped(s: string) {
    s == [] || (!IsSpace(s[0]) && !IsSpace(s[|s| - 1]))
  }

  /** The result of strip() has no whitespace at either end. */
  lemma StripStripped(s: string)
    ensures Stripped(Strip(s))
  {
    var l := LStrip(s);
    var r := RStrip(l);
    LStripFacts(s);
    RStripFacts(l);
    if r != [] {
      assert r[0] == l[0];
    }
  }

  /** strip() gives "" exactly for all-whitespace strings. */
  lemma StripEmpty(s: string)
    ensures Strip(s) == [] <==> AllSpace(s)
  {
    var l := LStrip(s);
    var r := RStrip(l);
    var n := LeadingSpaces(s);
    LStripFacts(s);
    RStripFacts(l);
    if r == [] {
      assert s == s[..n] + l;
      AllSpaceConcat(s[..n], l);
    } else {
      assert r[0] == l[0] == s[n];
    }
  }

  /** strip() leaves a stripped string alone. */
  lemma StripOfStripped(s: string)
    requires Stripped(s)
    ensures Strip(s) == s
  {
  }

  lemma StripFacts(s: string)
    ensures Stripped(Strip(s))
    ensures Strip(s) == [] <==> AllSpace(s)
    ensures Stripped(s) ==> Strip(s) == s
  {
    StripStripped(s);
    StripEmpty(s);
    if Stripped(s) {
      StripOfStripped(s);
    }
  }

  lemma AllSpaceConcat(a: string, b: string)
    requires AllSpace(a) && AllSpace(b)
    ensures AllSpace(a + b)
  {
    forall i | 0 <= i < |a + b| ensures IsSpace((a + b)[i]) {
      if i < |a| {
        assert (a + b)[i] == a[i];
      } else {
        assert (a + b)[i] == b[i - |a|];
      }
    }
  }

  /** strip() is idempotent. */
  lemma StripIdempotent(s: string)
    ensures Strip(Strip(s)) == Strip(s)
  {
    StripFacts(s);
    StripFacts(Strip(s));
  }

  lemma StripLeadingSpace(s: string)
    ensures Strip(" " + s) == Strip(s)
  {
    SpaceIsSpace();
    assert (" " + s)[1..] == s;
  }

  // ---------------------------------------------------------------------
  // split() with no separator: maximal runs of non-whitespace

  /** Length of the maximal non-whitespace prefix of `s`. */
  function WordLen(s: string): (n: nat)
    ensures n <= |s|
  {
    if s == [] || IsSpace(s[0]) then 0 else 1 + WordLen(s[1..])
  }

  predicate IsWord(w: string) {
    w != [] && forall i :: 0 <= i < |w| ==> !IsSpace(w[i])
  }

  /** `s.split()` */
  function SplitWs(s: string): seq<string>
    decreases |s|
  {
    if s == [] then []
    else if IsSpace(s[0]) then SplitWs(s[1..])
    else
      var n := WordLen(s);
      [s[..n]] + SplitWs(s[n..])
  }

  /** The prefix WordLen measures is a word, and it is maximal. */
  lemma {:induction false} WordLenFacts(s: string)
    ensures forall i :: 0 <= i < WordLen(s) ==> !IsSpace(s[i])
    ensures WordLen(s) == |s| || IsSpace(s[WordLen(s)])
    decreases |s|
  {
    if s != [] && !IsSpace(s[0]) {
      WordLenFacts(s[1..]);
      forall i | 1 <= i < WordLen(s) ensures !IsSpace(s[i]) {
        assert s[i] == s[1..][i - 1];
      }
    }
  }

  /** A word is its own maximal non-whitespace prefix. */
  lemma {:induction false} WordLenOfWord(w: string)
    requires IsWord(w)
    ensures WordLen(w) == |w|
    decreases |w|
  {
    if |w| > 1 {
      assert IsWord(w[1..]) by {
        forall i | 0 <= i < |w[1..]| ensures !IsSpace(w[1..][i]) {
          assert w[1..][i] == w[i + 1];
        }
      }
      WordLenOfWord(w[1..]);
    }
  }

  /** Every piece of `s.split()` is a word. */
  lemma {:induction false} SplitWsWords(s: string)
    ensures forall k :: 0 <= k < |SplitWs(s)| ==> IsWord(SplitWs(s)[k])
    decreases |s|
  {
    if s != [] {
      if IsSpace(s[0]) {
        SplitWsWords(s[1..]);
      } else {
        var n := WordLen(s);
        WordLenFacts(s);
        SplitWsWords(s[n..]);
        var rest := SplitWs(s[n..]);
        forall k | 0 <= k < |SplitWs(s)| ensures IsWord(SplitWs(s)[k]) {
          if k == 0 {
            assert SplitWs(s)[0] == s[..n];
          } else {
            assert SplitWs(s)[k] == rest[k - 1];
          }
        }
      }
    }
  }

  lemma {:induction false} WordLenConcat(a: string, b: string)
    ensures WordLen(a) < |a| ==> WordLen(a + b) == WordLen(a)
    ensures WordLen(a) == |a| ==> WordLen(a + b) == |a| + WordLen(b)
    decreases |a|
  {
    if a == [] {
      assert a + b == b;
    } else if IsSpace(a[0]) {
    } else {
      assert (a + b)[1..] == a[1..] + b;
      WordLenConcat(a[1..], b);
    }
  }

  lemma {:induction false} SplitWsAllSpace(s: string)
    requires AllSpace(s)
    ensures SplitWs(s) == []
    decreases |s|
  {
    if s != [] {
      SplitWsAllSpace(s[1..]);
    }
  }

  /** Words do not run across a whitespace boundary. */
  lemma {:induction false} SplitWsConcat(a: string, b: string)
    requires a == [] || b == [] || IsSpace(a[|a| - 1]) || IsSpace(b[0])
    ensures SplitWs(a + b) == SplitWs(a) + SplitWs(b)
    decreases |a|
  {
    if a == [] {
      assert a + b == b;
    } else if b == [] {
      assert a + b == a;
    } else if IsSpace(a[0]) {
      assert (a + b)[1..] == a[1..] + b;
      SplitWsConcat(a[1..], b);
    } else {
      var n := WordLen(a);
      WordLenConcat(a, b);
      if n < |a| {
        assert (a + b)[..n] == a[..n];
        assert (a + b)[n..] == a[n..] + b;
        SplitWsConcat(a[n..], b);
        AppendAssoc([a[..n]], SplitWs(a[n..]), SplitWs(b));
      } else {
        WordLenFacts(a);
        assert IsSpace(b[0]);
        assert WordLen(b) == 0;
        assert (a + b)[..n] == a;
        assert (a + b)[n..] == b;
        assert a[..n] == a && a[n..] == [];
        assert SplitWs(a) == [a];
        assert (a + b) != [] && !IsSpace((a + b)[0]);
        assert SplitWs(a + b) == [a] + SplitWs(b);
      }
    }
  }

  /** `a + " " + b` splits into the words of `a` followed by those of `b`. */
  lemma SplitWsSpaceJoin(a: string, b: string)
    ensures SplitWs(a + " " + b) == SplitWs(a) + SplitWs(b)
  {
    SplitWsConcat(a, " " + b);
    assert a + " " + b == a + (" " + b);
    SpaceIsSpace();
    SplitWsConcat(" ", b);
    SplitWsAllSpace(" ");
  }

  /** A word glued to the front of a string that starts with a word joins
      that first word. */
  lemma SplitWsGlue(a: string, b: string)
    requires IsWord(a) && b != [] && !IsSpace(b[0])
    ensures |SplitWs(a + b)| == |SplitWs(b)|
  {
    var m := WordLen(b);
    WordLenConcat(a, b);
    WordLenOfWord(a);
    var n := |a| + m;
    assert (a + b)[0] == a[0];
    assert SplitWs(a + b) == [(a + b)[..n]] + SplitWs((a + b)[n..]);
    assert (a + b)[n..] == b[m..];
    assert SplitWs(b) == [b[..m]] + SplitWs(b[m..]);
  }

  /** Gluing two strings without a space merges at most one pair of words. */
  lemma {:induction false} SplitWsMergeBound(a: string, b: string)
    ensures |SplitWs(a)| + |SplitWs(b)| <= |SplitWs(a + b)| + 1
    decreases |a|
  {
    if a == [] || b == [] || IsSpace(a[|a| - 1]) || IsSpace(b[0]) {
      SplitWsConcat(a, b);
    } else if IsSpace(a[0]) {
      assert (a + b)[1..] == a[1..] + b;
      SplitWsMergeBound(a[1..], b);
    } else {
      var n := WordLen(a);
      WordLenConcat(a, b);
      if n < |a| {
        assert (a + b)[..n] == a[..n];
        assert (a + b)[n..] == a[n..] + b;
        SplitWsMergeBound(a[n..], b);
      } else {
        assert a[..n] == a && a[n..] == [];
        assert SplitWs(a) == [a];
        WordLenFacts(a);
        SplitWsGlue(a, b);
      }
    }
  }

  lemma SplitWsLStrip(s: string)
    ensures SplitWs(LStrip(s)) == SplitWs(s)
  {
    var l := LStrip(s);
    LStripFacts(s);
    var pre := s[..|s| - |l|];
    assert s == pre + l;
    SplitWsConcat(pre, l);
    SplitWsAllSpace(pre);
  }

  lemma SplitWsRStrip(s: string)
    ensures SplitWs(RStrip(s)) == SplitWs(s)
  {
    var r := RStrip(s);
    RStripFacts(s);
    var post := s[|r|..];
    assert s == r + post;
    SplitWsConcat(r, post);
    SplitWsAllSpace(post);
  }

  /** strip() does not change the words of a string. */
  lemma SplitWsStrip(s: string)
    ensures SplitWs(Strip(s)) == SplitWs(s)
  {
    SplitWsLStrip(s);
    SplitWsRStrip(LStrip(s));
  }

  // ---------------------------------------------------------------------
  // sep.join(parts)

  /** `sep.join(xs)` */
  function Join(sep: string, xs: seq<string>): string
  {
    if |xs| == 0 then ""
    else if |xs| == 1 then xs[0]
    else xs[0] + sep + Join(sep, xs[1..])
  }

  lemma {:induction false} JoinSnoc(sep: string, xs: seq<string>, x: string)
    requires xs != []
    ensures Join(sep, xs + [x]) == Join(sep, xs) + sep + x
    decreases |xs|
  {
    if |xs| == 1 {
      assert (xs + [x])[1..] == [x];
    } else {
      assert (xs + [x])[1..] == xs[1..] + [x];
      JoinSnoc(sep, xs[1..], x);
    }
  }

  /** The words of every part, in order. */
  function AllWords(xs: seq<string>): seq<string>
  {
    if xs == [] then [] else AllWords(xs[..|xs| - 1]) + SplitWs(xs[|xs| - 1])
  }

  /** Joining with a space neither creates nor destroys words. */
  lemma {:induction false} SplitWsJoinSpace(xs: seq<string>)
    ensures SplitWs(Join(" ", xs)) == AllWords(xs)
    decreases |xs|
  {
    if xs == [] {
    } else if |xs| == 1 {
      assert xs[..0] == [];
    } else {
      var init := xs[..|xs| - 1];
      assert xs == init + [xs[|xs| - 1]];
      JoinSnoc(" ", init, xs[|xs| - 1]);
      SplitWsSpaceJoin(Join(" ", init), xs[|xs| - 1]);
      SplitWsJoinSpace(init);
    }
  }

  // ---------------------------------------------------------------------
  // split(sep) on a single character

  /** Index of the first occurrence of `c` in `s`. */
  function IndexOf(s: string, c: char): (k: nat)
    requires c in s
    ensures k < |s| && s[k] == c && c !in s[..k]
  {
    if s[0] == c then 0 else 1 + IndexOf(s[1..], c)
  }

  /** `s.split(sep)` for a one-character separator. */
  function Split(s: string, sep: char): (pieces: seq<string>)
    ensures |pieces| >= 1
    ensures forall k :: 0 <= k < |pieces| ==> sep !in pieces[k]
    decreases |s|
  {
    if sep !in s then [s]
    else
      var k := IndexOf(s, sep);
      [s[..k]] + Split(s[k + 1..], sep)
  }

  /** Splitting then joining with the same separator gives the string back. */
  lemma {:induction false} JoinSplit(s: string, sep: char)
    ensures Join([sep], Split(s, sep)) == s
    decreases |s|
  {
    if sep in s {
      var k := IndexOf(s, sep);
      var rest := Split(s[k + 1..], sep);
      JoinSplit(s[k + 1..], sep);
      var xs := [s[..k]] + rest;
      assert Split(s, sep) == xs;
      assert |xs| >= 2 && xs[0] == s[..k] && xs[1..] == rest;
      assert Join([sep], xs) == s[..k] + [sep] + Join([sep], rest);
      assert s == s[..k] + [sep] + s[k + 1..];
    }
  }

  /** Joining separator-free parts, then splitting, gives the parts back. */
  lemma {:induction false} SplitJoin(xs: seq<string>, sep: char)
    requires xs != []
    requires forall k :: 0 <= k < |xs| ==> sep !in xs[k]
    ensures Split(Join([sep], xs), sep) == xs
    decreases |xs|
  {
    if |xs| > 1 {
      var s := Join([sep], xs);
      var tail := Join([sep], xs[1..]);
      assert s == xs[0] + [sep] + tail;
      assert s[..|xs[0]|] == xs[0];
      assert s[|xs[0]|] == sep;
      assert IndexOf(s, sep) == |xs[0]| by {
        IndexOfPrefix(xs[0], [sep] + tail, sep);
        assert s == xs[0] + ([sep] + tail);
      }
      assert s[|xs[0]| + 1..] == tail;
      SplitJoin(xs[1..], sep);
    }
  }

  lemma {:induction false} IndexOfPrefix(a: string, b: string, c: char)
    requires c !in a && b != [] && b[0] == c
    ensures c in a + b && IndexOf(a + b, c) == |a|
    decreases |a|
  {
    assert (a + b)[|a|] == c;
    if a != [] {
      assert (a + b)[1..] == a[1..] + b;
      IndexOfPrefix(a[1..], b, c);
    }
  }

  // ---------------------------------------------------------------------
  // [p.strip() for p in s.split(sep) if p.strip()]

  /** Strip every piece and keep the non-blank ones, in order. */
  function StrippedNonBlank(pieces: seq<string>): (r: seq<string>)
    ensures |r| <= |pieces|
  {
    if pieces == [] then []
    else
      var p := Strip(pieces[0]);
      var rest := StrippedNonBlank(pieces[1..]);
      if p != "" then [p] + rest else rest
  }

  lemma {:induction false} StrippedNonBlankItem(pieces: seq<string>, k: nat)
    requires k < |StrippedNonBlank(pieces)|
    ensures StrippedNonBlank(pieces)[k] != "" && Stripped(StrippedNonBlank(pieces)[k])
    decreases |pieces|
  {
    var p := Strip(pieces[0]);
    var rest := StrippedNonBlank(pieces[1..]);
    if p != "" {
      assert StrippedNonBlank(pieces) == [p] + rest;
      if k == 0 {
        StripStripped(pieces[0]);
      } else {
        StrippedNonBlankItem(pieces[1..], k - 1);
        assert ([p] + rest)[k] == rest[k - 1];
      }
    } else {
      assert StrippedNonBlank(pieces) == rest;
      StrippedNonBlankItem(pieces[1..], k);
    }
  }

  /** Every kept piece is non-blank and trimmed. */
  lemma StrippedNonBlankItems(pieces: seq<string>)
    ensures forall k :: 0 <= k < |StrippedNonBlank(pieces)| ==>
      StrippedNonBlank(pieces)[k] != "" && Stripped(StrippedNonBlank(pieces)[k])
  {
    forall k | 0 <= k < |StrippedNonBlank(pieces)|
      ensures StrippedNonBlank(pieces)[k] != "" && Stripped(StrippedNonBlank(pieces)[k])
    {
      StrippedNonBlankItem(pieces, k);
    }
  }

  /** `[x.strip() for x in s.split(",") if x.strip()]` */
  function SplitCommaList(s: string): seq<string>
  {
    StrippedNonBlank(Split(s, ','))
  }

  lemma {:induction false} StrippedNonBlankKeeps(xs: seq<string>)
    requires forall k :: 0 <= k < |xs| ==> xs[k] != "" && Stripped(xs[k])
    ensures StrippedNonBlank(xs) == xs
    decreases |xs|
  {
    if xs != [] {
      var tail := xs[1..];
      StripOfStripped(xs[0]);
      assert Strip(xs[0]) == xs[0] != "";
      assert forall k :: 0 <= k < |tail| ==> tail[k] == xs[k + 1];
      StrippedNonBlankKeeps(tail);
      assert StrippedNonBlank(xs) == [xs[0]] + StrippedNonBlank(tail);
      ConsTail(xs);
    }
  }

  /** The comma-list items: non-empty, trimmed, comma-free, and the list
      is recovered from its comma-join. */
  lemma SplitCommaListItems(s: string)
    ensures forall k :: 0 <= k < |SplitCommaList(s)| ==>
      var t := SplitCommaList(s)[k]; t != "" && Stripped(t) && ',' !in t
  {
    var pieces := Split(s, ',');
    StrippedNonBlankItems(pieces);
    forall k | 0 <= k < |SplitCommaList(s)|
      ensures ',' !in SplitCommaList(s)[k]
    {
      StrippedNonBlankFrom(pieces, ',', k);
    }
  }

  lemma {:induction false} StrippedNonBlankFrom(pieces: seq<string>, c: char, k: nat)
    requires forall j :: 0 <= j < |pieces| ==> c !in pieces[j]
    requires k < |StrippedNonBlank(pieces)|
    ensures c !in StrippedNonBlank(pieces)[k]
    decreases |pieces|
  {
    var p := Strip(pieces[0]);
    var tail := pieces[1..];
    var rest := StrippedNonBlank(tail);
    assert forall j :: 0 <= j < |tail| ==> tail[j] == pieces[j + 1];
    if p != "" {
      assert StrippedNonBlank(pieces) == [p] + rest;
      if k == 0 {
        StripSubstring(pieces[0]);
      } else {
        StrippedNonBlankFrom(tail, c, k - 1);
        assert ([p] + rest)[k] == rest[k - 1];
      }
    } else {
      assert StrippedNonBlank(pieces) == rest;
      StrippedNonBlankFrom(tail, c, k);
    }
  }

  /** Every character of `strip(s)` occurs in `s`. */
  lemma StripSubstring(s: string)
    ensures forall ch :: ch in Strip(s) ==> ch in s
  {
    var l := LStrip(s);
    assert forall ch :: ch in l ==> ch in s by {
      assert l == s[|s| - |l|..];
    }
  }

  /** Round trip: trimmed, non-empty, comma-free items survive a comma-join
      followed by the comma-list split. */
  lemma SplitCommaListJoin(items: seq<string>)
    requires forall k :: 0 <= k < |items| ==> items[k] != "" && Stripped(items[k]) && ',' !in items[k]
    ensures SplitCommaList(Join(",", items)) == items
  {
    if items == [] {
      SplitCommaListEmpty();
    } else {
      var pieces := Split(Join(",", items), ',');
      assert pieces == items by {
        SplitJoin(items, ',');
      }
      assert StrippedNonBlank(items) == items by {
        StrippedNonBlankKeeps(items);
      }
    }
  }

  lemma SplitCommaListEmpty()
    ensures SplitCommaList("") == []
  {
    assert Split("", ',') == [""];
    assert Strip("") == "";
    assert StrippedNonBlank([""]) == [];
  }

  /** A leading space joins the first piece of a comma split. */
  lemma SplitAfterSpace(t: string)
    ensures Split(" " + t, ',') == [" " + Split(t, ',')[0]] + Split(t, ',')[1..]
  {
    var s := " " + t;
    assert s[1..] == t;
    if ',' in t {
      var k := IndexOf(t, ',');
      assert IndexOf(s, ',') == k + 1;
      assert s[..k + 1] == " " + t[..k];
      assert s[k + 2..] == t[k + 1..];
    } else {
      assert ',' !in s by {
        forall i | 0 <= i < |s| ensures s[i] != ',' {
          if i > 0 {
            assert s[i] == t[i - 1];
          }
        }
      }
    }
  }

  /** A leading space changes no comma-list item. */
  lemma SplitCommaListSpace(t: string)
    ensures SplitCommaList(" " + t) == SplitCommaList(t)
  {
    SplitAfterSpace(t);
    var ps := Split(t, ',');
    var qs := [" " + ps[0]] + ps[1..];
    StripLeadingSpace(ps[0]);
    assert qs[0] == " " + ps[0] && qs[1..] == ps[1..];
  }

  /** A clean first item before a comma is the first comma-list item. */
  lemma SplitCommaListCons(a: string, t: string)
    requires a != "" && Stripped(a) && ',' !in a
    ensures SplitCommaList(a + "," + t) == [a] + SplitCommaList(t)
  {
    var s := a + "," + t;
    assert s == a + ("," + t);
    IndexOfPrefix(a, "," + t, ',');
    assert s[..|a|] == a;
    assert s[|a| + 1..] == t;
    assert Split(s, ',') == [a] + Split(t, ',');
    StripOfStripped(a);
    assert ([a] + Split(t, ','))[1..] == Split(t, ',');
  }

  /** Clean items joined with ", " are read back by the comma-list split. */
  lemma {:induction false} SplitCommaListJoinSpaced(items: seq<string>)
    requires forall k :: 0 <= k < |items| ==> items[k] != "" && Stripped(items[k]) && ',' !in items[k]
    ensures SplitCommaList(Join(", ", items)) == items
    decreases |items|
  {
    if items == [] {
      SplitCommaListEmpty();
    } else if |items| == 1 {
      StripOfStripped(items[0]);
      assert Split(items[0], ',') == [items[0]];
      assert [items[0]][1..] == [];
    } else {
      var rest := Join(", ", items[1..]);
      assert ", " + rest == "," + (" " + rest);
      assert Join(", ", items) == items[0] + "," + (" " + rest);
      SplitCommaListCons(items[0], " " + rest);
      SplitCommaListSpace(rest);
      SplitCommaListJoinSpaced(items[1..]);
      ConsTail(items);
    }
  }
}
