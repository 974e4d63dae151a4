/** The insight agent: packing sentences into chunks under a word budget,
    removing duplicate article texts, reading the URL argument, and the
    one insight document a topic produces. Page download, the sentence
    tokenizer, the summariser and the event extractor are oracles. */
module InsightAgent {
  import opened PyValues
  import opened PyStr
  import opened ChromaDb

  const DefaultMaxTokens: nat := 512

  // ---------------------------------------------------------------------
  // chunk_text

  /** The budget test `chunk_text` applies (AsWritten), and the test it
      evidently means (Intended): the candidate chunk with the joining
      space, and no flush while nothing has been gathered. */
  datatype Rule = AsWritten | Intended

  /** The loop state of `chunk_text`, with the sentences that went into
      each chunk alongside: `groups[k]` gave `chunks[k]`, and `group` is
      what `current` holds. */
  datatype Packing = Packing(chunks: seq<string>, current: string, groups: seq<seq<string>>, group: seq<string>)

  /** Whether `sentence` still joins the chunk being gathered. */
  function Fits(current: string, sentence: string, maxTokens: nat, rule: Rule): bool {
    match rule
    case AsWritten => |SplitWs(current + sentence)| <= maxTokens
    case Intended => |SplitWs(current + " " + sentence)| <= maxTokens
  }

  /** One iteration of the loop over the sentences. */
  function PackStep(p: Packing, sentence: string, maxTokens: nat, rule: Rule): Packing {
    if Fits(p.current, sentence, maxTokens, rule) then
      p.(current := p.current + " " + sentence, group := p.group + [sentence])
    else if rule == Intended && p.current == "" then
      p.(current := sentence, group := [sentence])
    else
      Packing(p.chunks + [Strip(p.current)], sentence, p.groups + [p.group], [sentence])
  }

  /** The loop state after the given sentences. */
  function Pack(sentences: seq<string>, maxTokens: nat, rule: Rule): Packing
    decreases |sentences|
  {
    if sentences == [] then Packing([], "", [], [])
    else PackStep(Pack(sentences[..|sentences| - 1], maxTokens, rule), sentences[|sentences| - 1], maxTokens, rule)
  }

  /** The chunks returned: the loop's chunks and, when `current` is not
      empty, its stripped text. */
  function Chunks(sentences: seq<string>, maxTokens: nat, rule: Rule): (r: seq<string>)
    ensures sentences == [] ==> r == []
  {
    var p := Pack(sentences, maxTokens, rule);
    if p.current != "" then p.chunks + [Strip(p.current)] else p.chunks
  }

  /** The sentences behind each returned chunk. */
  function Groups(sentences: seq<string>, maxTokens: nat, rule: Rule): seq<seq<string>> {
    var p := Pack(sentences, maxTokens, rule);
    if p.current != "" then p.groups + [p.group] else p.groups
  }

  /** `chunk_text(text, max_tokens)` on the tokenizer's sentences. */
  method ChunkText(sentences: seq<string>, maxTokens: nat) returns (chunks: seq<string>)
    ensures chunks == Chunks(sentences, maxTokens, AsWritten)
  {
    chunks := [];
    var current := "";
    for i := 0 to |sentences|
      invariant chunks == Pack(sentences[..i], maxTokens, AsWritten).chunks
      invariant current == Pack(sentences[..i], maxTokens, AsWritten).current
    {
      assert sentences[..i + 1][..i] == sentences[..i];
      var sentence := sentences[i];
      if |SplitWs(current + sentence)| <= maxTokens {
        current := current + " " + sentence;
      } else {
        chunks := chunks + [Strip(current)];
        current := sentence;
      }
    }
    assert sentences[..|sentences|] == sentences;
    if current != "" {
      chunks := chunks + [Strip(current)];
    }
  }

  /** The concatenation of the groups, in order. */
  function Flatten(gs: seq<seq<string>>): seq<string>
  {
    if gs == [] then [] else Flatten(gs[..|gs| - 1]) + gs[|gs| - 1]
  }

  /** The most words a chunk of two or more sentences can have. */
  function Bound(maxTokens: nat, rule: Rule): nat {
    if rule == AsWritten then maxTokens + 1 else maxTokens
  }

  lemma SplitWsLeadingSpace(s: string)
    ensures SplitWs(" " + s) == SplitWs(s)
  {
    SplitWsSpaceJoin("", s);
    assert "" + " " + s == " " + s;
  }

  /** The shape of the loop state: a chunk per closed group, the groups
      and the open group laying out the sentences in order, and `current`
      holding the open group joined with spaces (after one leading space
      when it was started on an empty chunk). */
  lemma PackShape(sentences: seq<string>, maxTokens: nat, rule: Rule)
    requires forall k :: 0 <= k < |sentences| ==> sentences[k] != ""
    ensures var p := Pack(sentences, maxTokens, rule);
      && |p.chunks| == |p.groups|
      && Flatten(p.groups) + p.group == sentences
      && (p.current == Join(" ", p.group) || p.current == " " + Join(" ", p.group))
      && (p.group == [] ==> p.current == "")
  {
    PackCount(sentences, maxTokens, rule);
    PackLayout(sentences, maxTokens, rule);
    PackCurrent(sentences, maxTokens, rule);
  }

  lemma {:induction false} PackCount(sentences: seq<string>, maxTokens: nat, rule: Rule)
    ensures |Pack(sentences, maxTokens, rule).chunks| == |Pack(sentences, maxTokens, rule).groups|
    decreases |sentences|
  {
    if sentences != [] {
      PackCount(sentences[..|sentences| - 1], maxTokens, rule);
    }
  }

  /** With no empty sentence, the closed groups and then the open group
      are the sentences, in order. */
  lemma {:induction false} PackLayout(sentences: seq<string>, maxTokens: nat, rule: Rule)
    requires forall k :: 0 <= k < |sentences| ==> sentences[k] != ""
    ensures Flatten(Pack(sentences, maxTokens, rule).groups) + Pack(sentences, maxTokens, rule).group == sentences
    decreases |sentences|
  {
    if sentences != [] {
      var init := sentences[..|sentences| - 1];
      var s := sentences[|sentences| - 1];
      var q := Pack(init, maxTokens, rule);
      PackLayout(init, maxTokens, rule);
      var before := Flatten(q.groups);
      assert before + q.group == init;
      assert sentences == init + [s];
      PackCurrent(init, maxTokens, rule);
      if q.group != [] {
        assert q.group[0] == (before + q.group)[|before|];
        JoinNonEmpty(q.group);
      }
      if Fits(q.current, s, maxTokens, rule) {
        AppendAssoc(before, q.group, [s]);
      } else if rule == Intended && q.current == "" {
        assert q.group == [];
        assert before == init;
      } else {
        var gs := q.groups + [q.group];
        assert gs[..|gs| - 1] == q.groups;
        assert Flatten(gs) == init;
      }
    }
  }

  lemma {:induction false} PackCurrent(sentences: seq<string>, maxTokens: nat, rule: Rule)
    ensures var p := Pack(sentences, maxTokens, rule);
      && (p.current == Join(" ", p.group) || p.current == " " + Join(" ", p.group))
      && (p.group == [] ==> p.current == "")
    decreases |sentences|
  {
    if sentences != [] {
      var init := sentences[..|sentences| - 1];
      var s := sentences[|sentences| - 1];
      var q := Pack(init, maxTokens, rule);
      PackCurrent(init, maxTokens, rule);
      assert Join(" ", [s]) == s;
      if Fits(q.current, s, maxTokens, rule) && q.group != [] {
        var j := Join(" ", q.group);
        JoinSnoc(" ", q.group, s);
        if q.current != j {
          AppendAssoc(" ", j, " ");
          AppendAssoc(" ", j + " ", s);
        }
      }
    }
  }

  /** Each chunk is its group of sentences, joined with spaces and stripped. */
  lemma {:induction false} PackChunk(sentences: seq<string>, maxTokens: nat, rule: Rule, k: nat)
    requires k < |Pack(sentences, maxTokens, rule).chunks|
    ensures var p := Pack(sentences, maxTokens, rule);
      k < |p.groups| && p.chunks[k] == Strip(Join(" ", p.groups[k]))
    decreases |sentences|
  {
    PackCount(sentences, maxTokens, rule);
    PackCurrent(sentences, maxTokens, rule);
    var init := sentences[..|sentences| - 1];
    var s := sentences[|sentences| - 1];
    var q := Pack(init, maxTokens, rule);
    PackCount(init, maxTokens, rule);
    PackCurrent(init, maxTokens, rule);
    if k < |q.chunks| {
      PackChunk(init, maxTokens, rule, k);
    } else if q.current != Join(" ", q.group) {
      StripLeadingSpace(Join(" ", q.group));
    }
  }

  /** Every sentence that joins an open group of one or more sentences fits
      the budget, so an open group of two or more sentences has at most
      Bound words. */
  lemma PackCurrentBound(sentences: seq<string>, maxTokens: nat, rule: Rule)
    ensures var p := Pack(sentences, maxTokens, rule);
      |p.group| >= 2 ==> |AllWords(p.group)| <= Bound(maxTokens, rule)
  {
    if sentences != [] {
      var init := sentences[..|sentences| - 1];
      var s := sentences[|sentences| - 1];
      var q := Pack(init, maxTokens, rule);
      if Fits(q.current, s, maxTokens, rule) && q.group != [] {
        PackCount(init, maxTokens, rule);
        PackCurrent(init, maxTokens, rule);
        SplitWsJoinSpace(q.group);
        SplitWsLeadingSpace(Join(" ", q.group));
        assert SplitWs(q.current) == AllWords(q.group);
        assert (q.group + [s])[..|q.group|] == q.group;
        assert AllWords(q.group + [s]) == AllWords(q.group) + SplitWs(s);
        if rule == AsWritten {
          SplitWsMergeBound(q.current, s);
        } else {
          SplitWsSpaceJoin(q.current, s);
        }
      }
    }
  }

  /** A closed group of two or more sentences has at most Bound words. */
  lemma {:induction false} PackGroupBound(sentences: seq<string>, maxTokens: nat, rule: Rule, k: nat)
    requires k < |Pack(sentences, maxTokens, rule).groups|
    ensures var g := Pack(sentences, maxTokens, rule).groups[k];
      |g| >= 2 ==> |AllWords(g)| <= Bound(maxTokens, rule)
    decreases |sentences|
  {
    var init := sentences[..|sentences| - 1];
    var q := Pack(init, maxTokens, rule);
    if k < |q.groups| {
      PackGroupBound(init, maxTokens, rule, k);
    } else {
      PackCurrentBound(init, maxTokens, rule);
    }
  }

  /** Under the intended rule no group is empty. */
  lemma {:induction false} IntendedGroupNonEmpty(sentences: seq<string>, maxTokens: nat, k: nat)
    requires k < |Pack(sentences, maxTokens, Intended).groups|
    ensures Pack(sentences, maxTokens, Intended).groups[k] != []
    decreases |sentences|
  {
    var init := sentences[..|sentences| - 1];
    var q := Pack(init, maxTokens, Intended);
    if k < |q.groups| {
      IntendedGroupNonEmpty(init, maxTokens, k);
    } else {
      PackCount(init, maxTokens, Intended);
      PackCurrent(init, maxTokens, Intended);
    }
  }

  /** The words of the chunks so far, then of `current`, are the words of
      the sentences so far. */
  lemma {:induction false} PackWords(sentences: seq<string>, maxTokens: nat, rule: Rule)
    ensures var p := Pack(sentences, maxTokens, rule);
      AllWords(p.chunks) + SplitWs(p.current) == AllWords(sentences)
    decreases |sentences|
  {
    if sentences != [] {
      var init := sentences[..|sentences| - 1];
      var s := sentences[|sentences| - 1];
      var q := Pack(init, maxTokens, rule);
      PackWords(init, maxTokens, rule);
      if Fits(q.current, s, maxTokens, rule) {
        SplitWsSpaceJoin(q.current, s);
        AppendAssoc(AllWords(q.chunks), SplitWs(q.current), SplitWs(s));
      } else if rule == Intended && q.current == "" {
      } else {
        var cs := q.chunks + [Strip(q.current)];
        assert cs[..|cs| - 1] == q.chunks;
        SplitWsStrip(q.current);
      }
    }
  }

  /** No word is lost, added or moved: the chunks hold the words of the
      sentences in order, also once joined with spaces. */
  lemma ChunksKeepWords(sentences: seq<string>, maxTokens: nat, rule: Rule)
    ensures AllWords(Chunks(sentences, maxTokens, rule)) == AllWords(sentences)
    ensures SplitWs(Join(" ", Chunks(sentences, maxTokens, rule))) == AllWords(sentences)
  {
    var p := Pack(sentences, maxTokens, rule);
    PackWords(sentences, maxTokens, rule);
    if p.current != "" {
      var cs := p.chunks + [Strip(p.current)];
      assert cs[..|cs| - 1] == p.chunks;
      SplitWsStrip(p.current);
    } else {
      assert p.chunks + [] == p.chunks;
    }
    SplitWsJoinSpace(Chunks(sentences, maxTokens, rule));
  }

  lemma {:induction false} JoinNonEmpty(xs: seq<string>)
    requires xs != [] && xs[0] != ""
    ensures Join(" ", xs) != ""
  {
    if |xs| > 1 {
      assert Join(" ", xs)[0] == xs[0][0];
    }
  }

  /** A sentence is never split: the groups are consecutive runs of the
      sentences, in order, one per chunk. */
  lemma ChunksPartition(sentences: seq<string>, maxTokens: nat, rule: Rule)
    requires forall k :: 0 <= k < |sentences| ==> sentences[k] != ""
    ensures |Chunks(sentences, maxTokens, rule)| == |Groups(sentences, maxTokens, rule)|
    ensures Flatten(Groups(sentences, maxTokens, rule)) == sentences
  {
    var p := Pack(sentences, maxTokens, rule);
    PackShape(sentences, maxTokens, rule);
    if p.group != [] {
      assert p.group[0] in sentences by {
        assert sentences[|Flatten(p.groups)|] == p.group[0];
      }
      JoinNonEmpty(p.group);
    }
    if p.current != "" {
      var gs := p.groups + [p.group];
      assert gs[..|gs| - 1] == p.groups;
    } else {
      assert p.group == [];
      assert Flatten(p.groups) + [] == Flatten(p.groups);
    }
  }

  /** Chunk k is group k joined with spaces and stripped. */
  lemma ChunkOfGroup(sentences: seq<string>, maxTokens: nat, rule: Rule, k: nat)
    requires forall j :: 0 <= j < |sentences| ==> sentences[j] != ""
    requires k < |Chunks(sentences, maxTokens, rule)|
    ensures k < |Groups(sentences, maxTokens, rule)|
    ensures Chunks(sentences, maxTokens, rule)[k] == Strip(Join(" ", Groups(sentences, maxTokens, rule)[k]))
  {
    ChunksPartition(sentences, maxTokens, rule);
    var p := Pack(sentences, maxTokens, rule);
    PackCount(sentences, maxTokens, rule);
    PackCurrent(sentences, maxTokens, rule);
    if k < |p.chunks| {
      PackChunk(sentences, maxTokens, rule, k);
    } else if p.current != Join(" ", p.group) {
      StripLeadingSpace(Join(" ", p.group));
    }
  }

  /** A chunk of two or more sentences has at most Bound words: one more
      than the budget as written, the budget under the intended rule. A
      chunk over that bound is a single sentence. */
  lemma ChunkWordBound(sentences: seq<string>, maxTokens: nat, rule: Rule, k: nat)
    requires forall j :: 0 <= j < |sentences| ==> sentences[j] != ""
    requires k < |Chunks(sentences, maxTokens, rule)|
    ensures k < |Groups(sentences, maxTokens, rule)|
    ensures |Groups(sentences, maxTokens, rule)[k]| >= 2 ==>
        |SplitWs(Chunks(sentences, maxTokens, rule)[k])| <= Bound(maxTokens, rule)
  {
    ChunksPartition(sentences, maxTokens, rule);
    ChunkOfGroup(sentences, maxTokens, rule, k);
    var g := Groups(sentences, maxTokens, rule)[k];
    var p := Pack(sentences, maxTokens, rule);
    if k < |p.groups| {
      PackGroupBound(sentences, maxTokens, rule, k);
    } else {
      PackCurrentBound(sentences, maxTokens, rule);
    }
    SplitWsStrip(Join(" ", g));
    SplitWsJoinSpace(g);
  }

  /** Under the intended rule every chunk comes from at least one sentence. */
  lemma IntendedChunksNonEmpty(sentences: seq<string>, maxTokens: nat, k: nat)
    requires forall j :: 0 <= j < |sentences| ==> sentences[j] != ""
    requires k < |Chunks(sentences, maxTokens, Intended)|
    ensures k < |Groups(sentences, maxTokens, Intended)|
    ensures Groups(sentences, maxTokens, Intended)[k] != []
  {
    ChunksPartition(sentences, maxTokens, Intended);
    var p := Pack(sentences, maxTokens, Intended);
    PackCount(sentences, maxTokens, Intended);
    PackCurrent(sentences, maxTokens, Intended);
    if k < |p.groups| {
      IntendedGroupNonEmpty(sentences, maxTokens, k);
    }
  }

  lemma OneCharWord(c: char)
    requires !IsSpace(c)
    ensures SplitWs([c]) == [[c]]
  {
    assert [c][1..] == [] && WordLen([c][1..]) == 0;
    assert WordLen([c]) == 1 && [c][..1] == [c] && [c][1..] == [];
  }

  lemma SingleLetterWords()
    ensures SplitWs("a") == ["a"] && SplitWs("b") == ["b"]
  {
    AsciiSpace('a');
    AsciiSpace('b');
    OneCharWord('a');
    OneCharWord('b');
  }

  lemma TwoLetterWords()
    ensures SplitWs("ab") == ["ab"] && SplitWs(" ab") == ["ab"]
  {
    AsciiSpace('a');
    AsciiSpace('b');
    AsciiSpace(' ');
    assert "b"[1..] == "" && WordLen("b") == 1;
    assert "ab"[1..] == "b" && WordLen("ab") == 2 && "ab"[..2] == "ab" && "ab"[2..] == "";
    assert SplitWs("ab") == ["ab"];
    assert " ab"[1..] == "ab";
  }

  lemma SpacedWordsTail()
    ensures SplitWs(" b") == ["b"]
  {
    SingleLetterWords();
    AsciiSpace(' ');
    assert " b"[1..] == "b";
  }

  lemma SpacedWords()
    ensures SplitWs("a b") == ["a", "b"] && SplitWs(" a b") == ["a", "b"]
  {
    SpacedWordsTail();
    AsciiSpace('a');
    AsciiSpace(' ');
    assert WordLen(" b") == 0;
    assert "a b"[1..] == " b" && WordLen("a b") == 1;
    assert "a b"[..1] == "a";
    assert SplitWs("a b") == ["a", "b"];
    assert " a b"[1..] == "a b";
  }

  lemma StripExamples()
    ensures Strip(" a b") == "a b" && Strip("a b") == "a b" && Strip("") == ""
  {
    AsciiSpace('a');
    AsciiSpace('b');
    assert Stripped("a b");
    StripOfStripped("a b");
    assert " " + "a b" == " a b";
    StripLeadingSpace("a b");
  }

  /** The words of the short strings the examples below use. */
  lemma ExampleWords()
    ensures SplitWs("a") == ["a"] && SplitWs(" ab") == ["ab"]
    ensures SplitWs("a b") == ["a", "b"] && SplitWs(" a b") == ["a", "b"]
    ensures Strip(" a b") == "a b" && Strip("a b") == "a b" && Strip("") == ""
  {
    SingleLetterWords();
    TwoLetterWords();
    SpacedWords();
    StripExamples();
  }

  lemma PackOneWord()
    ensures Pack(["a"], 1, AsWritten) == Packing([], " a", [], ["a"])
  {
    SingleLetterWords();
    assert ["a"][..0] == [];
    assert "" + "a" == "a";
  }

  lemma PackTwoWords()
    ensures Pack(["a", "b"], 1, AsWritten) == Packing([], " a b", [], ["a", "b"])
  {
    PackOneWord();
    TwoLetterWords();
    var xs := ["a", "b"];
    assert xs[..1] == ["a"];
    assert " a" + "b" == " ab";
    assert " a" + " " + "b" == " a b";
  }

  /** As written, two one-word sentences under a one-word budget make a
      single chunk of two words. */
  lemma ChunkOverflowExample()
    ensures Chunks(["a", "b"], 1, AsWritten) == ["a b"]
    ensures Groups(["a", "b"], 1, AsWritten) == [["a", "b"]]
    ensures |SplitWs("a b")| == 2
  {
    PackTwoWords();
    StripExamples();
    SpacedWords();
  }

  lemma PackOverBudget()
    ensures Pack(["a b"], 1, AsWritten) == Packing([""], "a b", [[]], ["a b"])
  {
    SpacedWords();
    StripExamples();
    assert ["a b"][..0] == [];
    assert "" + "a b" == "a b";
  }

  /** The sentence "a b" at budget 1 gives the chunks `["", "a b"]`. */
  lemma EmptyFirstChunkExample()
    ensures Chunks(["a b"], 1, AsWritten) == ["", "a b"]
  {
    PackOverBudget();
    StripExamples();
  }

  /** Chunks, once flushed, stay: the chunks after a prefix of the
      sentences begin the chunks after all of them. */
  lemma {:induction false} PackChunksPrefix(sentences: seq<string>, n: nat, maxTokens: nat, rule: Rule)
    requires n <= |sentences|
    ensures Pack(sentences[..n], maxTokens, rule).chunks <= Pack(sentences, maxTokens, rule).chunks
    decreases |sentences|
  {
    if n < |sentences| {
      var init := sentences[..|sentences| - 1];
      assert sentences[..n] == init[..n];
      PackChunksPrefix(init, n, maxTokens, rule);
    } else {
      assert sentences[..n] == sentences;
    }
  }

  /** As written, a first sentence over the budget flushes the empty chunk
      it starts with, so the first chunk returned is `""`. */
  lemma OverBudgetFirstChunkEmpty(sentences: seq<string>, maxTokens: nat)
    requires sentences != [] && |SplitWs(sentences[0])| > maxTokens
    ensures Chunks(sentences, maxTokens, AsWritten) != []
    ensures Chunks(sentences, maxTokens, AsWritten)[0] == ""
  {
    var first := sentences[..1];
    assert first[..0] == [] && first[0] == sentences[0];
    assert "" + sentences[0] == sentences[0];
    StripEmpty("");
    assert Pack(first, maxTokens, AsWritten).chunks == [""];
    PackChunksPrefix(sentences, 1, maxTokens, AsWritten);
  }

  // ---------------------------------------------------------------------
  // deduplicate_articles

  /** Code points outside ASCII that `\W` matches: the Latin-1 controls,
      punctuation and symbols, and the General Punctuation block. */
  const NonWordRanges: seq<(char, char)> := [
    ('\U{80}', '\U{A9}'), ('\U{AB}', '\U{B1}'), ('\U{B4}', '\U{B4}'), ('\U{B6}', '\U{B8}'),
    ('\U{BB}', '\U{BB}'), ('\U{BF}', '\U{BF}'), ('\U{D7}', '\U{D7}'), ('\U{F7}', '\U{F7}'),
    ('\U{2000}', '\U{206F}')]

  /** A character `\w` matches. */
  predicate IsWordChar(c: char) {
    ('a' <= c <= 'z') || ('A' <= c <= 'Z') || ('0' <= c <= '9') || c == '_'
    || (c >= '\U{80}' && !InRanges(c, NonWordRanges))
  }

  predicate IsUpper(c: char) {
    ('A' <= c <= 'Z') || ('\U{C0}' <= c <= '\U{DE}' && c != '\U{D7}')
  }

  /** `str.lower()` on one character, for ASCII and Latin-1. */
  function Lower(c: char): (r: char)
    ensures !IsUpper(r)
  {
    if IsUpper(c) then (c as int + 32) as char else c
  }

  /** `re.sub(r"\W", "", s.lower())`: lower-case, then drop every
      character that is not a word character. */
  function Normalize(s: string): string
  {
    if s == [] then []
    else (if IsWordChar(Lower(s[0])) then [Lower(s[0])] else []) + Normalize(s[1..])
  }

  /** A normal form holds only lower-case word characters. */
  lemma {:induction false} NormalizeChars(s: string)
    ensures forall i :: 0 <= i < |Normalize(s)| ==> IsWordChar(Normalize(s)[i]) && !IsUpper(Normalize(s)[i])
    decreases |s|
  {
    if s != [] {
      NormalizeChars(s[1..]);
      var head := if IsWordChar(Lower(s[0])) then [Lower(s[0])] else [];
      forall i | 0 <= i < |Normalize(s)|
        ensures IsWordChar(Normalize(s)[i]) && !IsUpper(Normalize(s)[i])
      {
        if i >= |head| {
          assert Normalize(s)[i] == Normalize(s[1..])[i - |head|];
        }
      }
    }
  }

  /** Normalizing a normal form changes nothing. */
  lemma {:induction false} NormalizeIdempotent(s: string)
    ensures Normalize(Normalize(s)) == Normalize(s)
    decreases |s|
  {
    NormalizeChars(s);
    NormalizeFixed(Normalize(s));
  }

  lemma {:induction false} NormalizeFixed(t: string)
    requires forall i :: 0 <= i < |t| ==> IsWordChar(t[i]) && !IsUpper(t[i])
    ensures Normalize(t) == t
    decreases |t|
  {
    if t != [] {
      assert Lower(t[0]) == t[0];
      NormalizeFixed(t[1..]);
      ConsTail(t);
    }
  }

  /** The normal forms of the given texts. */
  function Normals(xs: seq<string>): set<string>
  {
    if xs == [] then {} else Normals(xs[..|xs| - 1]) + {Normalize(xs[|xs| - 1])}
  }

  lemma {:induction false} NormalsIndex(xs: seq<string>, i: nat)
    requires i < |xs|
    ensures Normalize(xs[i]) in Normals(xs)
    decreases |xs|
  {
    if i < |xs| - 1 {
      NormalsIndex(xs[..|xs| - 1], i);
    }
  }

  lemma {:induction false} NormalsWitness(xs: seq<string>, n: string) returns (i: nat)
    requires n in Normals(xs)
    ensures i < |xs| && Normalize(xs[i]) == n
    decreases |xs|
  {
    if Normalize(xs[|xs| - 1]) == n {
      i := |xs| - 1;
    } else {
      i := NormalsWitness(xs[..|xs| - 1], n);
    }
  }

  /** The texts kept: each one whose normal form no earlier text had. */
  function Dedup(xs: seq<string>): seq<string>
  {
    if xs == [] then []
    else
      var init := xs[..|xs| - 1];
      var x := xs[|xs| - 1];
      if Normalize(x) in Normals(init) then Dedup(init) else Dedup(init) + [x]
  }

  /** `deduplicate_articles(articles)` */
  method DeduplicateArticles(articles: seq<string>) returns (unique: seq<string>)
    ensures unique == Dedup(articles)
  {
    unique := [];
    var seen: set<string> := {};
    for i := 0 to |articles|
      invariant unique == Dedup(articles[..i])
      invariant seen == Normals(articles[..i])
    {
      assert articles[..i + 1][..i] == articles[..i];
      var norm := Normalize(articles[i]);
      if norm !in seen {
        seen := seen + {norm};
        unique := unique + [articles[i]];
      }
    }
    assert articles[..|articles|] == articles;
  }

  /** Every input's normal form is represented in the output. */
  lemma {:induction false} DedupNormals(xs: seq<string>)
    ensures Normals(Dedup(xs)) == Normals(xs)
    decreases |xs|
  {
    if xs != [] {
      var init := xs[..|xs| - 1];
      var x := xs[|xs| - 1];
      DedupNormals(init);
      if Normalize(x) !in Normals(init) {
        var r := Dedup(init) + [x];
        assert r[..|r| - 1] == Dedup(init);
      }
    }
  }

  /** No two outputs share a normal form. */
  lemma {:induction false} DedupDistinct(xs: seq<string>)
    ensures forall i, j :: 0 <= i < j < |Dedup(xs)| ==> Normalize(Dedup(xs)[i]) != Normalize(Dedup(xs)[j])
    decreases |xs|
  {
    if xs != [] {
      var init := xs[..|xs| - 1];
      var x := xs[|xs| - 1];
      DedupDistinct(init);
      if Normalize(x) !in Normals(init) {
        var d := Dedup(init);
        var r := d + [x];
        DedupNormals(init);
        forall i, j | 0 <= i < j < |r| ensures Normalize(r[i]) != Normalize(r[j]) {
          if j == |d| {
            NormalsIndex(d, i);
          } else {
            assert r[i] == d[i] && r[j] == d[j];
          }
        }
      }
    }
  }

  /** `a` is `b` with some entries left out. */
  ghost predicate Subseq<T>(a: seq<T>, b: seq<T>)
    decreases |b|
  {
    if a == [] then true
    else if b == [] then false
    else if a[|a| - 1] == b[|b| - 1] then Subseq(a[..|a| - 1], b[..|b| - 1])
    else Subseq(a, b[..|b| - 1])
  }

  lemma {:induction false} SubseqSnoc<T>(a: seq<T>, b: seq<T>, x: T)
    requires Subseq(a, b)
    ensures Subseq(a, b + [x])
    decreases |b|, 1
  {
    var bx := b + [x];
    assert bx[..|bx| - 1] == b;
    if a != [] && a[|a| - 1] == x {
      SubseqDropLast(a, b);
    }
  }

  lemma {:induction false} SubseqDropLast<T>(a: seq<T>, b: seq<T>)
    requires a != [] && Subseq(a, b)
    ensures Subseq(a[..|a| - 1], b)
    decreases |b|, 0
  {
    var a' := a[..|a| - 1];
    var b' := b[..|b| - 1];
    assert b == b' + [b[|b| - 1]];
    if a' != [] {
      if a[|a| - 1] == b[|b| - 1] {
        SubseqSnoc(a', b', b[|b| - 1]);
      } else {
        SubseqDropLast(a, b');
        SubseqSnoc(a', b', b[|b| - 1]);
      }
    }
  }

  /** The output is the input with some texts left out, order kept. */
  lemma {:induction false} DedupSubseq(xs: seq<string>)
    ensures Subseq(Dedup(xs), xs)
    decreases |xs|
  {
    if xs != [] {
      var init := xs[..|xs| - 1];
      var x := xs[|xs| - 1];
      DedupSubseq(init);
      assert xs == init + [x];
      if Normalize(x) in Normals(init) {
        SubseqSnoc(Dedup(init), init, x);
      } else {
        var r := Dedup(init) + [x];
        assert r[..|r| - 1] == Dedup(init);
      }
    }
  }

  /** Every first occurrence of a normal form is kept. */
  lemma {:induction false} DedupKeepsFirst(xs: seq<string>, i: nat)
    requires i < |xs| && Normalize(xs[i]) !in Normals(xs[..i])
    ensures xs[i] in Dedup(xs)
    decreases |xs|
  {
    var init := xs[..|xs| - 1];
    if i < |xs| - 1 {
      assert init[..i] == xs[..i];
      DedupKeepsFirst(init, i);
    } else {
      assert xs[..i] == init;
    }
  }

  /** Texts whose normal forms are pairwise distinct are all kept. */
  lemma {:induction false} DedupOfDistinct(ys: seq<string>)
    requires forall i, j :: 0 <= i < j < |ys| ==> Normalize(ys[i]) != Normalize(ys[j])
    ensures Dedup(ys) == ys
    decreases |ys|
  {
    if ys != [] {
      var init := ys[..|ys| - 1];
      DedupOfDistinct(init);
      if Normalize(ys[|ys| - 1]) in Normals(init) {
        var k := NormalsWitness(init, Normalize(ys[|ys| - 1]));
        assert false;
      }
      assert init + [ys[|ys| - 1]] == ys;
    }
  }

  lemma DedupIdempotent(xs: seq<string>)
    ensures Dedup(Dedup(xs)) == Dedup(xs)
  {
    DedupDistinct(xs);
    DedupOfDistinct(Dedup(xs));
  }

  // ---------------------------------------------------------------------
  // build_insight_pipeline and generate_insights_for_topic

  /** The calls the insight agent makes that the model does not see into:
      the page download (the texts of its `<p>` elements, or the request
      raised), the sentence tokenizer, the summariser, and the event
      extractor. */
  datatype InsightOracles = InsightOracles(
    page: string -> Result<seq<string>>,
    sentences: string -> seq<string>,
    summarize: string -> string,
    extractEvents: string -> string)

  /** `extract_article_from_url(url)`: the paragraphs joined with spaces and
      stripped; "" when the request raised. */
  function ExtractArticle(url: string, page: string -> Result<seq<string>>): (text: string)
    ensures Stripped(text)
    ensures page(url).Err? ==> text == ""
  {
    match page(url)
    case Err(_) => ""
    case Ok(paragraphs) =>
      StripStripped(Join(" ", paragraphs));
      Strip(Join(" ", paragraphs))
  }

  /** One summariser output per chunk, in chunk order. */
  function Summaries(chunks: seq<string>, summarize: string -> string): (r: seq<string>)
    ensures |r| == |chunks|
    ensures forall i :: 0 <= i < |chunks| ==> r[i] == summarize(chunks[i])
  {
    if chunks == [] then [] else [summarize(chunks[0])] + Summaries(chunks[1..], summarize)
  }

  /** The summary of an article: its chunks, as `chunk_text` cuts them
      under the default budget, summarised one by one and joined with
      spaces. */
  function ArticleSummary(article: string, o: InsightOracles): string {
    Join(" ", Summaries(Chunks(o.sentences(article), DefaultMaxTokens, AsWritten), o.summarize))
  }

  /** `summarize_article(article)` */
  method SummarizeArticle(article: string, o: InsightOracles) returns (summary: string)
    ensures summary == ArticleSummary(article, o)
    ensures o.sentences(article) == [] ==> summary == ""
  {
    var chunks := ChunkText(o.sentences(article), DefaultMaxTokens);
    summary := Join(" ", Summaries(chunks, o.summarize));
  }

  /** The dict built per article: `{"url", "summary", "events"}`. */
  datatype Insight = Insight(url: string, summary: string, events: string)

  /** `build_insight_pipeline(url)`: one page, deduplicated (a single text
      is always kept), summarised and mined for events. The result is a
      list with exactly one insight. */
  method BuildInsightPipeline(url: string, o: InsightOracles) returns (insights: seq<Insight>)
    ensures var article := ExtractArticle(url, o.page);
      insights == [Insight(url, ArticleSummary(article, o), o.extractEvents(article))]
  {
    var raw := [ExtractArticle(url, o.page)];
    var deduped := DeduplicateArticles(raw);
    assert raw[..0] == [];
    assert deduped == raw;
    insights := [];
    for i := 0 to |deduped|
      invariant |insights| == i
      invariant forall k :: 0 <= k < i ==>
        insights[k] == Insight(url, ArticleSummary(deduped[k], o), o.extractEvents(deduped[k]))
    {
      var summary := SummarizeArticle(deduped[i], o);
      var events := o.extractEvents(deduped[i]);
      insights := insights + [Insight(url, summary, events)];
    }
  }

  /** The URL list of `generate_insights_for_topic`: a string, or a list of
      exactly one string, is split on commas, trimmed, blanks dropped; any
      other list is used as it is; anything else has no `split`. */
  function UrlList(urlString: Value): Result<seq<string>>
  {
    match urlString
    case Str(s) => Ok(SplitCommaList(s))
    case StrList(items) => if |items| == 1 then Ok(SplitCommaList(items[0])) else Ok(items)
    case Null => Err(AttributeError)
  }

  /** The document written for a topic. `events` is built from the
      summaries, as `summaries` is. */
  function InsightDocument(topic: Value, urls: seq<string>, summaries: seq<string>): Document {
    DictDoc(map[
      "title" := topic,
      "urls" := Str(Join(",", urls)),
      "summaries" := Str(Join("\n", summaries)),
      "events" := Str(Join("\n", summaries))])
  }

  function InsightWrite(topic: Value, urls: seq<string>, today: string): Write {
    Write("news_insights", InsightDocument(topic, urls, []), today)
  }

  /** The per-URL loop of `generate_insights_for_topic`: each URL's
      pipeline runs, its result (a list) is subscripted with "summary" and
      then "events", and a raise skips the URL. A list subscripted with a
      str raises, so every URL fails and no summary is gathered. */
  method ProcessUrls(urls: seq<string>, o: InsightOracles) returns (summaries: seq<string>, failed: seq<string>)
    ensures summaries == [] && failed == urls
  {
    summaries := [];
    var events: seq<string> := [];
    failed := [];
    for i := 0 to |urls|
      invariant failed == urls[..i]
      invariant summaries == [] && events == []
    {
      var url := urls[i];
      var insights := BuildInsightPipeline(url, o);
      match ListItemByKey(insights, "summary")
      case Err(_) =>
        failed := failed + [url];
      case Ok(item) =>
        summaries := summaries + [item.summary];
        match ListItemByKey(insights, "events")
        case Err(_) =>
          failed := failed + [url];
        case Ok(item2) =>
          events := events + [item2.events];
    }
    assert urls[..|urls|] == urls;
  }

  /** `generate_insights_for_topic(topic, url_string)`. Every URL is run
      through the insight pipeline, but `insights["summary"]` subscripts
      the returned list with a string, which raises TypeError; the per-URL
      handler swallows it, so no summary and no event is ever gathered.
      The one document written lists the URLs and has empty `summaries`
      and `events`. A URL argument without `split` ends the call before
      anything is written. Returns the URLs whose processing raised. */
  method GenerateInsightsForTopic(store: DocumentStore, topic: Value, urlString: Value, today: string, o: InsightOracles)
    returns (failed: seq<string>)
    requires store.Valid()
    modifies store
    ensures store.Valid()
    ensures UrlList(urlString).Err? ==> failed == [] && store.log == old(store.log) && store.collections == old(store.collections)
    ensures UrlList(urlString).Ok? ==>
      && failed == UrlList(urlString).value
      && store.log == old(store.log) + [InsightWrite(topic, UrlList(urlString).value, today)]
  {
    failed := [];
    var urlList := UrlList(urlString);
    if urlList.Err? {
      return;
    }
    var urls := urlList.value;
    var summaries;
    summaries, failed := ProcessUrls(urls, o);
    store.AddDocument("news_insights", InsightDocument(topic, urls, summaries), today);
  }

  /** When the URL argument is a string or a one-string list, the URLs are
      trimmed, non-empty and comma-free, and splitting the stored `urls`
      field the same way gives them back. A longer or empty list is used
      unchanged. */
  lemma UrlListRoundTrip(urlString: Value)
    requires UrlList(urlString).Ok?
    ensures var urls := UrlList(urlString).value;
      (urlString.Str? || |urlString.items| == 1) ==>
        && (forall k :: 0 <= k < |urls| ==> urls[k] != "" && Stripped(urls[k]) && ',' !in urls[k])
        && SplitCommaList(Join(",", urls)) == urls
    ensures urlString.StrList? && |urlString.items| != 1 ==> UrlList(urlString).value == urlString.items
  {
    var urls := UrlList(urlString).value;
    if urlString.Str? || |urlString.items| == 1 {
      var s := if urlString.Str? then urlString.s else urlString.items[0];
      assert urls == SplitCommaList(s);
      SplitCommaListItems(s);
      SplitCommaListJoin(urls);
    }
  }

  /** What the store holds for a topic after its insight write, when the
      write files a record (a string title) and that record is the one
      kept: the title as content, the comma-joined URLs, and empty
      `summaries` and `events`. */
  lemma InsightRecordStored(cols: Collections, topic: string, urls: seq<string>, today: string,
                            idOf: string -> string, upsert: bool)
    requires upsert || idOf(topic) !in Lookup(cols, NewsInsights)
    ensures var after := Lookup(Added(cols, InsightWrite(Str(topic), urls, today), idOf, upsert), NewsInsights);
      && idOf(topic) in after
      && after[idOf(topic)].content == Str(topic)
      && after[idOf(topic)].metadata["urls"] == Str(Join(",", urls))
      && after[idOf(topic)].metadata["summaries"] == Str("")
      && after[idOf(topic)].metadata["events"] == Str("")
      && after[idOf(topic)].metadata["date_inserted"] == Str(today)
  {
    var w := InsightWrite(Str(topic), urls, today);
    assert CategoryOf("news_insights") == Some(NewsInsights);
    var e := Prepare(w, idOf).value;
    assert e.category == NewsInsights && e.id == idOf(topic);
    assert Join("\n", []) == "";
  }
}
