/** The news graph: five nodes run one after another over a single state
    record, each handing back the state it was given with one key
    replaced. The nodes extract keywords, fetch and file news for them and
    read the filed articles back, keep the titles that score well against
    the keywords, file an insight per kept article, and turn the stored
    events into a story. */
module FetchAgent {
  import opened PyValues
  import opened PyStr
  import opened Ranking
  import opened ChromaDb
  import NewsFetcher
  import InsightAgent

  // ---------------------------------------------------------------------
  // NewsState

  /** An article dict of `news_articles` and `filtered_articles`. */
  datatype Article = Article(title: Value, url: Value, text: Value, source: Value)

  /** A dict of `summarised_news`. */
  datatype Summarised = Summarised(title: Value, urls: Value, summary: Value, events: Value)

  /** `NewsState`. A key that is not set yet is `Null` (for `keywords`) or
      `None` (for the other optional keys). */
  datatype NewsState = NewsState(
    userInput: string,
    keywords: Value,
    newsArticles: Option<seq<Article>>,
    filteredArticles: Option<seq<Article>>,
    summarisedNews: Option<seq<Summarised>>,
    stories: Option<string>)

  /** The keys of NewsState. */
  datatype Key = UserInput | Keywords | NewsArticles | FilteredArticles | SummarisedNews | Stories

  /** `after` is `{**before, key: v}` for some `v`: every other key keeps
      its value. */
  predicate OnlyReplaced(before: NewsState, after: NewsState, key: Key) {
    && (key == UserInput || after.userInput == before.userInput)
    && (key == Keywords || after.keywords == before.keywords)
    && (key == NewsArticles || after.newsArticles == before.newsArticles)
    && (key == FilteredArticles || after.filteredArticles == before.filteredArticles)
    && (key == SummarisedNews || after.summarisedNews == before.summarisedNews)
    && (key == Stories || after.stories == before.stories)
  }

  /** The state the graph is invoked with: only `user_input` is set. */
  function InitialState(userInput: string): NewsState {
    NewsState(userInput, Null, None, None, None, None)
  }

  /** The services the graph calls and the model does not see into: the
      news providers, the cosine similarity of a title and a keyword under
      the sentence embedding, the insight agent's services (whose event
      extractor is also the keyword extractor), and the text the chat model
      writes for a list of events. */
  datatype AgentOracles = AgentOracles(
    providers: NewsFetcher.Providers,
    similarity: (string, string) -> real,
    insight: InsightAgent.InsightOracles,
    story: seq<string> -> string)

  // ---------------------------------------------------------------------
  // Node 1: extract_keywords_node

  /** The extractor's raw reply becomes `keywords`: one string, not a list. */
  function ExtractKeywordsNode(s: NewsState, o: AgentOracles): (r: NewsState)
    ensures OnlyReplaced(s, r, Keywords)
    ensures r.keywords == Str(o.insight.extractEvents(s.userInput))
  {
    s.(keywords := Str(o.insight.extractEvents(s.userInput)))
  }

  // ---------------------------------------------------------------------
  // Node 2: fetch_news_node

  /** The article dict built from one stored row. */
  function ArticleOf(h: Hit): Article {
    var meta := h.record.metadata;
    Article(Get(meta, "title", Str("Untitled")), Get(meta, "url", Str("")), h.record.content, Get(meta, "source", Str("")))
  }

  function ArticlesOf(rows: seq<Hit>): (r: seq<Article>)
    ensures |r| == |rows|
    ensures forall k :: 0 <= k < |rows| ==> r[k] == ArticleOf(rows[k])
  {
    seq(|rows|, k requires 0 <= k < |rows| => ArticleOf(rows[k]))
  }

  /** The loop of `fetch_news_node` over the rows of the read. */
  method ArticlesFromRows(hits: seq<Hit>) returns (articles: seq<Article>)
    ensures articles == ArticlesOf(hits)
  {
    articles := [];
    for i := 0 to |hits|
      invariant |articles| == i
      invariant forall k :: 0 <= k < i ==> articles[k] == ArticleOf(hits[k])
    {
      articles := articles + [ArticleOf(hits[i])];
    }
  }

  /** A row the news fetcher filed reads back with its own title and url,
      the title again as `text`, and an empty `source`: news metadata has
      no `source` key, and always a title. */
  lemma FiledNewsArticle(id: string, d: Dict, today: string)
    requires "title" in d
    ensures ArticleOf(Hit(id, BuildRecord(News, d, today))) == Article(d["title"], Get(d, "url", Str("")), d["title"], Str(""))
  {
    var meta := BuildRecord(News, d, today).metadata;
    assert "source" !in meta;
    assert meta["title"] == d["title"];
  }

  /** `fetch_news_node`: fetch and file news for the keyword string, then
      one article per row of the `news` read, in row order. `keywords`
      that is not a string has no `split`. */
  method FetchNewsNode(store: DocumentStore, s: NewsState, today: string, o: AgentOracles)
    returns (r: Result<NewsState>, ghost rows: seq<Hit>)
    requires store.Valid()
    modifies store
    ensures store.Valid()
    ensures !s.keywords.Str? ==>
      && r == Err(if s.keywords.Null? then KeyError("keywords") else AttributeError)
      && store.log == old(store.log) && store.collections == old(store.collections)
    ensures s.keywords.Str? ==>
      && store.log == old(store.log) + NewsFetcher.TopicsWrites(SplitCommaList(s.keywords.s), today, o.providers)
      && QueryResult(rows, Lookup(store.collections, News), store.queryLimit)
      && r.Ok? && OnlyReplaced(s, r.value, NewsArticles)
      && r.value.newsArticles == Some(ArticlesOf(rows))
  {
    rows := [];
    if !s.keywords.Str? {
      r := Err(if s.keywords.Null? then KeyError("keywords") else AttributeError);
      return;
    }
    var calls := NewsFetcher.FetchNewsTopics(store, s.keywords.s, today, o.providers);
    assert CategoryOf("news") == Some(News);
    var got := store.GetDocuments("news");
    var hits := got.value;
    rows := hits;
    var articles := ArticlesFromRows(hits);
    r := Ok(s.(newsArticles := Some(articles)));
  }

  // ---------------------------------------------------------------------
  // Node 3: filter_articles_node

  /** The lowest best-keyword similarity a kept title may have. */
  const Threshold: real := 0.4

  /** How many articles the filter keeps at most. */
  const MaxFiltered: nat := 15

  /** A string's characters as one-character strings: what iterating over
      a string yields. */
  function Chars(s: string): (r: seq<string>)
    ensures |r| == |s|
    ensures forall i :: 0 <= i < |s| ==> r[i] == [s[i]]
  {
    seq(|s|, i requires 0 <= i < |s| => [s[i]])
  }

  /** The non-whitespace characters of `s`, in order, each a string. */
  function NonSpaceChars(s: string): (r: seq<string>)
    ensures |r| <= |s|
    ensures forall k :: 0 <= k < |r| ==> |r[k]| == 1 && !IsSpace(r[k][0]) && r[k][0] in s
    decreases |s|
  {
    if s == [] then []
    else (if IsSpace(s[0]) then [] else [[s[0]]]) + NonSpaceChars(s[1..])
  }

  /** Step 1: `[kw.strip() for kw in keywords if isinstance(kw, str) and
      kw.strip()]`, with `keywords` read by `state.get("keywords", [])`. */
  function CleanKeywords(keywords: Value): seq<string> {
    match keywords
    case Str(s) => StrippedNonBlank(Chars(s))
    case StrList(items) => StrippedNonBlank(items)
    case Null => []
  }

  lemma StripSingle(c: char)
    ensures Strip([c]) == (if IsSpace(c) then "" else [c])
  {
    StripFacts([c]);
    if IsSpace(c) {
      assert AllSpace([c]);
    } else {
      assert !AllSpace([c]) by { assert [c][0] == c; }
      assert Stripped([c]);
    }
  }

  /** The keyword string that node 1 stores is cleaned character by
      character: the keywords are its non-whitespace characters. */
  lemma {:induction false} KeywordsOfString(s: string)
    ensures CleanKeywords(Str(s)) == NonSpaceChars(s)
    decreases |s|
  {
    if s != [] {
      var cs := Chars(s);
      assert cs[1..] == Chars(s[1..]);
      StripSingle(s[0]);
      KeywordsOfString(s[1..]);
    }
  }

  /** `sims.max()`: the best similarity of `title` to any keyword. */
  function MaxSim(title: string, keywords: seq<string>, sim: (string, string) -> real): (m: real)
    requires keywords != []
    ensures forall k :: 0 <= k < |keywords| ==> sim(title, keywords[k]) <= m
    ensures exists k :: 0 <= k < |keywords| && sim(title, keywords[k]) == m
    decreases |keywords|
  {
    if |keywords| == 1 then sim(title, keywords[0])
    else
      var rest := MaxSim(title, keywords[1..], sim);
      assert forall k :: 1 <= k < |keywords| ==> keywords[k] == keywords[1..][k - 1];
      if sim(title, keywords[0]) >= rest then sim(title, keywords[0]) else rest
  }

  /** One pass of the loop body: the title stripped; a blank title is
      skipped before anything is scored; otherwise the best keyword
      similarity, kept when it reaches the threshold. A title without
      `strip` raises, and so does the maximum over no keywords. */
  function Score(a: Article, keywords: seq<string>, sim: (string, string) -> real): (r: Result<Option<Scored<Article>>>)
    ensures r.Err? <==> !a.title.Str? || (Strip(a.title.s) != "" && keywords == [])
    ensures a.title.Str? && Strip(a.title.s) == "" ==> r == Ok(None)
    ensures a.title.Str? && Strip(a.title.s) != "" && keywords != [] ==>
      r.Ok? && (r.value.Some? <==> MaxSim(Strip(a.title.s), keywords, sim) >= Threshold)
    ensures r.Ok? && r.value.Some? ==>
      && r.value.value.item == a
      && a.title.Str? && Strip(a.title.s) != "" && keywords != []
      && r.value.value.score == MaxSim(Strip(a.title.s), keywords, sim)
      && r.value.value.score >= Threshold
  {
    if !a.title.Str? then Err(AttributeError)
    else
      var title := Strip(a.title.s);
      if title == "" then Ok(None)
      else if keywords == [] then Err(RuntimeError)
      else
        var m := MaxSim(title, keywords, sim);
        if m >= Threshold then Ok(Some(Scored(m, a))) else Ok(None)
  }

  /** The `(max_sim, article)` pairs the loop appends, in article order, or
      the exception that ends the loop. */
  function Candidates(articles: seq<Article>, keywords: seq<string>, sim: (string, string) -> real)
    : Result<seq<Scored<Article>>>
    decreases |articles|
  {
    if articles == [] then Ok([])
    else
      match Candidates(articles[..|articles| - 1], keywords, sim)
      case Err(e) => Err(e)
      case Ok(c) =>
        match Score(articles[|articles| - 1], keywords, sim)
        case Err(e) => Err(e)
        case Ok(None) => Ok(c)
        case Ok(Some(x)) => Ok(c + [x])
  }

  /** An exception ends the loop: once a prefix raises, so does the whole. */
  lemma {:induction false} CandidatesErrExtends(articles: seq<Article>, n: nat, keywords: seq<string>, sim: (string, string) -> real)
    requires n <= |articles|
    requires Candidates(articles[..n], keywords, sim).Err?
    ensures Candidates(articles, keywords, sim) == Candidates(articles[..n], keywords, sim)
    decreases |articles| - n
  {
    if n < |articles| {
      assert articles[..n + 1][..n] == articles[..n];
      CandidatesErrExtends(articles, n + 1, keywords, sim);
    } else {
      assert articles[..n] == articles;
    }
  }

  /** Every pair comes from an article of the input whose title scored. */
  lemma {:induction false} CandidatesKept(articles: seq<Article>, keywords: seq<string>, sim: (string, string) -> real, x: Scored<Article>)
    requires Candidates(articles, keywords, sim).Ok?
    requires x in Candidates(articles, keywords, sim).value
    ensures x.item in articles && Score(x.item, keywords, sim) == Ok(Some(x))
    decreases |articles|
  {
    var init := articles[..|articles| - 1];
    var last := articles[|articles| - 1];
    var c := Candidates(init, keywords, sim).value;
    var sc := Score(last, keywords, sim);
    if sc.value.Some? && x == sc.value.value {
    } else {
      assert x in c;
      CandidatesKept(init, keywords, sim, x);
      assert x.item in init;
    }
  }

  /** Every article whose title scores has its pair in the list. */
  lemma {:induction false} CandidatesComplete(articles: seq<Article>, keywords: seq<string>, sim: (string, string) -> real, i: nat)
    requires Candidates(articles, keywords, sim).Ok? && i < |articles|
    ensures Score(articles[i], keywords, sim).Ok?
    ensures Score(articles[i], keywords, sim).value.Some? ==>
      Score(articles[i], keywords, sim).value.value in Candidates(articles, keywords, sim).value
    decreases |articles|
  {
    var init := articles[..|articles| - 1];
    if i < |init| {
      assert articles[i] == init[i];
      CandidatesComplete(init, keywords, sim, i);
    }
  }

  /** With no keywords a title either is blank or raises: nothing is kept. */
  lemma {:induction false} CandidatesNoKeywords(articles: seq<Article>, sim: (string, string) -> real)
    ensures Candidates(articles, [], sim).Ok? ==> Candidates(articles, [], sim) == Ok([])
    decreases |articles|
  {
    if articles != [] {
      CandidatesNoKeywords(articles[..|articles| - 1], sim);
    }
  }

  /** An article with a blank title neither adds a pair nor raises, so
      removing it changes nothing. */
  lemma {:induction false} BlankTitleIgnored(before: seq<Article>, a: Article, after: seq<Article>,
                                             keywords: seq<string>, sim: (string, string) -> real)
    requires a.title.Str? && Strip(a.title.s) == ""
    ensures Candidates(before + [a] + after, keywords, sim) == Candidates(before + after, keywords, sim)
    decreases |after|
  {
    if after == [] {
      assert (before + [a] + after)[..|before|] == before;
      assert before + after == before;
    } else {
      var init := after[..|after| - 1];
      var last := after[|after| - 1];
      assert (before + [a] + after)[..|before + [a] + after| - 1] == before + [a] + init;
      assert (before + after)[..|before + after| - 1] == before + init;
      assert (before + [a] + after)[|before + [a] + after| - 1] == last;
      assert (before + after)[|before + after| - 1] == last;
      BlankTitleIgnored(before, a, init, keywords, sim);
    }
  }

  /** What the `try` block of the filter produces, scores kept: the pairs
      sorted best first and cut to 15; `[]` when the loop raised, when
      `news_articles` is absent, or when the sort compared two different
      article dicts of equal score. */
  function Ranked(keywords: Value, articles: Option<seq<Article>>, sim: (string, string) -> real): seq<Scored<Article>> {
    if articles.None? then []
    else
      match Candidates(articles.value, CleanKeywords(keywords), sim)
      case Err(_) => []
      case Ok(c) => if TiesAgree(c) then Take(SortDesc(c), MaxFiltered) else []
  }

  /** `filtered_articles`. */
  function Filtered(keywords: Value, articles: Option<seq<Article>>, sim: (string, string) -> real): seq<Article> {
    Items(Ranked(keywords, articles, sim))
  }

  /** `sorted(filtered, reverse=True)` on the pairs: when equal scores
      carry equal articles it completes, and every descending rearrangement
      of the pairs is the one SortDesc gives. */
  lemma PythonSortAgrees(c: seq<Scored<Article>>, sorted: seq<Scored<Article>>)
    requires multiset(sorted) == multiset(c) && SortedDesc(sorted)
    requires TiesAgree(c)
    ensures sorted == SortDesc(c)
  {
    var d := SortDesc(c);
    forall i, j | 0 <= i < |d| && 0 <= j < |d| && d[i].score == d[j].score
      ensures d[i] == d[j]
    {
      assert d[i] in multiset(c) && d[j] in multiset(c);
    }
    SortedPermutationUnique(d, sorted);
  }

  /** At most 15 articles, best score first, each an input article with a
      non-blank string title whose best keyword similarity is its score
      and reaches 0.4. */
  lemma RankedSound(keywords: Value, articles: Option<seq<Article>>, sim: (string, string) -> real)
    ensures var r := Ranked(keywords, articles, sim);
      && |r| <= MaxFiltered
      && SortedDesc(r)
      && forall x :: x in r ==>
        && articles.Some? && x.item in articles.value
        && x.item.title.Str? && Strip(x.item.title.s) != ""
        && CleanKeywords(keywords) != []
        && x.score == MaxSim(Strip(x.item.title.s), CleanKeywords(keywords), sim)
        && x.score >= Threshold
  {
    var r := Ranked(keywords, articles, sim);
    if r != [] {
      var kws := CleanKeywords(keywords);
      var c := Candidates(articles.value, kws, sim).value;
      var d := SortDesc(c);
      assert r == d[..|r|];
      forall x | x in r
        ensures x.item in articles.value && Score(x.item, kws, sim) == Ok(Some(x))
      {
        assert x in multiset(d);
        CandidatesKept(articles.value, kws, sim, x);
      }
    }
  }

  /** A scoring article that did not make the cut was beaten by 15 others
      scoring at least as high. */
  lemma RankedComplete(keywords: Value, articles: seq<Article>, sim: (string, string) -> real, i: nat)
    requires i < |articles|
    requires Candidates(articles, CleanKeywords(keywords), sim).Ok?
    requires TiesAgree(Candidates(articles, CleanKeywords(keywords), sim).value)
    requires Score(articles[i], CleanKeywords(keywords), sim).Ok?
    requires Score(articles[i], CleanKeywords(keywords), sim).value.Some?
    ensures var x := Score(articles[i], CleanKeywords(keywords), sim).value.value;
      var r := Ranked(keywords, Some(articles), sim);
      x in r || (|r| == MaxFiltered && forall y :: y in r ==> y.score >= x.score)
  {
    var kws := CleanKeywords(keywords);
    var x := Score(articles[i], kws, sim).value.value;
    var c := Candidates(articles, kws, sim).value;
    CandidatesComplete(articles, kws, sim, i);
    assert x in multiset(SortDesc(c));
    if x !in Take(SortDesc(c), MaxFiltered) {
      TakeIsTop(SortDesc(c), MaxFiltered, x);
    }
  }

  /** Keywords that are all blank keep no article. */
  lemma NoKeywordsNothingKept(keywords: Value, articles: Option<seq<Article>>, sim: (string, string) -> real)
    requires CleanKeywords(keywords) == []
    ensures Filtered(keywords, articles, sim) == []
  {
    if articles.Some? {
      CandidatesNoKeywords(articles.value, sim);
    }
  }

  /** The loop of the filter over `news_articles`: the pairs it appends,
      or the exception that ends it. */
  method ScoreArticles(articles: seq<Article>, keywords: seq<string>, sim: (string, string) -> real)
    returns (r: Result<seq<Scored<Article>>>)
    ensures r == Candidates(articles, keywords, sim)
  {
    var filtered: seq<Scored<Article>> := [];
    var i := 0;
    while i < |articles|
      invariant 0 <= i <= |articles|
      invariant Candidates(articles[..i], keywords, sim) == Ok(filtered)
    {
      assert articles[..i + 1][..i] == articles[..i];
      var scored := Score(articles[i], keywords, sim);
      if scored.Err? {
        CandidatesErrExtends(articles, i + 1, keywords, sim);
        return Err(scored.error);
      }
      if scored.value.Some? {
        filtered := filtered + [scored.value.value];
      }
      i := i + 1;
    }
    assert articles[..i] == articles;
    r := Ok(filtered);
  }

  /** `filter_articles_node`. */
  method FilterArticlesNode(s: NewsState, sim: (string, string) -> real) returns (r: NewsState)
    ensures OnlyReplaced(s, r, FilteredArticles)
    ensures r.filteredArticles == Some(Filtered(s.keywords, s.newsArticles, sim))
  {
    var keywords := CleanKeywords(s.keywords);
    if s.newsArticles.None? {
      return s.(filteredArticles := Some([]));
    }
    var scored := ScoreArticles(s.newsArticles.value, keywords, sim);
    if scored.Err? {
      return s.(filteredArticles := Some([]));
    }
    var filtered := scored.value;
    if !TiesAgree(filtered) {
      return s.(filteredArticles := Some([]));
    }
    var top := Take(SortDesc(filtered), MaxFiltered);
    r := s.(filteredArticles := Some(Items(top)));
  }

  // ---------------------------------------------------------------------
  // Node 4: summarize_node

  /** The category the node reads back; it is not one of the three. */
  const RelevantNews: string := "relevant_news"

  /** `[article["url"]]` as the URL argument of the insight agent: a
      string URL gives a one-string list. A one-element list holding
      anything else fails on `split` as `Null` does. */
  function UrlArg(url: Value): Value {
    if url.Str? then StrList([url.s]) else Null
  }

  /** The insight write for one filtered article, if any. */
  function ArticleInsightWrites(a: Article, today: string): seq<Write> {
    match InsightAgent.UrlList(UrlArg(a.url))
    case Err(_) => []
    case Ok(urls) => [InsightAgent.InsightWrite(a.title, urls, today)]
  }

  /** The insight writes for the filtered articles, in order. */
  function InsightWrites(articles: seq<Article>, today: string): seq<Write>
    decreases |articles|
  {
    if articles == [] then []
    else InsightWrites(articles[..|articles| - 1], today) + ArticleInsightWrites(articles[|articles| - 1], today)
  }

  /** An article with a string URL gets one write, listing the URL split
      on commas. */
  lemma StrUrlInsightWrite(a: Article, today: string)
    requires a.url.Str?
    ensures ArticleInsightWrites(a, today) == [InsightAgent.InsightWrite(a.title, SplitCommaList(a.url.s), today)]
  {
    assert InsightAgent.UrlList(UrlArg(a.url)) == Ok(SplitCommaList(a.url.s));
  }

  lemma InsightWritesSnoc(articles: seq<Article>, today: string)
    requires articles != []
    ensures InsightWrites(articles, today)
      == InsightWrites(articles[..|articles| - 1], today) + ArticleInsightWrites(articles[|articles| - 1], today)
  {
  }

  /** Articles with string URLs each get one `news_insights` write, in
      order, titled by the article and listing the comma-split URL. */
  lemma {:induction false} InsightWritesShape(articles: seq<Article>, today: string)
    requires forall k :: 0 <= k < |articles| ==> articles[k].url.Str?
    ensures |InsightWrites(articles, today)| == |articles|
    ensures forall k :: 0 <= k < |articles| ==>
      InsightWrites(articles, today)[k] == InsightAgent.InsightWrite(articles[k].title, SplitCommaList(articles[k].url.s), today)
    decreases |articles|
  {
    if articles != [] {
      var n := |articles| - 1;
      var init := articles[..n];
      var w := InsightWrites(init, today);
      InsightWritesShape(init, today);
      StrUrlInsightWrite(articles[n], today);
      var all := InsightWrites(articles, today);
      var x := InsightAgent.InsightWrite(articles[n].title, SplitCommaList(articles[n].url.s), today);
      InsightWritesSnoc(articles, today);
      assert all == w + [x];
      forall k | 0 <= k <= n
        ensures all[k] == InsightAgent.InsightWrite(articles[k].title, SplitCommaList(articles[k].url.s), today)
      {
        if k < n {
          assert init[k] == articles[k];
          assert all[k] == w[k];
        } else {
          assert all[k] == x;
        }
      }
    }
  }

  /** Every write of the node goes to `news_insights`. */
  lemma {:induction false} InsightWritesCategory(articles: seq<Article>, today: string)
    ensures forall k :: 0 <= k < |InsightWrites(articles, today)| ==> InsightWrites(articles, today)[k].category == "news_insights"
    decreases |articles|
  {
    if articles != [] {
      InsightWritesCategory(articles[..|articles| - 1], today);
    }
  }

  lemma InsightWritesStep(articles: seq<Article>, i: nat, today: string, base: seq<Write>, before: seq<Write>, after: seq<Write>)
    requires i < |articles|
    requires before == base + InsightWrites(articles[..i], today)
    requires after == before + ArticleInsightWrites(articles[i], today)
    ensures after == base + InsightWrites(articles[..i + 1], today)
  {
    assert articles[..i + 1][..i] == articles[..i];
    AppendAssoc(base, InsightWrites(articles[..i], today), ArticleInsightWrites(articles[i], today));
  }

  /** `summarize_node`: one insight run per filtered article, then a read
      of `relevant_news`, which is not a category: the node always raises
      ValueError, after the insight writes. */
  method SummarizeNode(store: DocumentStore, s: NewsState, today: string, o: AgentOracles) returns (r: Result<NewsState>)
    requires store.Valid()
    modifies store
    ensures store.Valid()
    ensures s.filteredArticles.None? ==>
      && r == Err(KeyError("filtered_articles"))
      && store.log == old(store.log) && store.collections == old(store.collections)
    ensures s.filteredArticles.Some? ==>
      && r == Err(ValueError("Unknown category: " + RelevantNews))
      && store.log == old(store.log) + InsightWrites(s.filteredArticles.value, today)
  {
    if s.filteredArticles.None? {
      return Err(KeyError("filtered_articles"));
    }
    var articles := s.filteredArticles.value;
    for i := 0 to |articles|
      invariant store.Valid()
      invariant store.log == old(store.log) + InsightWrites(articles[..i], today)
    {
      ghost var before := store.log;
      var failed := InsightAgent.GenerateInsightsForTopic(store, articles[i].title, UrlArg(articles[i].url), today, o.insight);
      InsightWritesStep(articles, i, today, old(store.log), before, store.log);
    }
    assert articles[..|articles|] == articles;
    assert CategoryOf(RelevantNews) == None;
    var got := store.GetDocuments(RelevantNews);
    r := Err(got.error);
  }

  // ---------------------------------------------------------------------
  // Node 5: generate_story_node

  /** `[l.strip() for l in text.strip().split("\n") if l.strip()]` */
  function EventLines(text: string): seq<string> {
    StrippedNonBlank(Split(Strip(text), '\n'))
  }

  /** The events of one summarised article: nothing when its `events` is
      falsy; a non-empty list has no `strip`. */
  function ArticleEvents(a: Summarised): Result<seq<string>> {
    match a.events
    case Str(t) => Ok(if t != "" then EventLines(t) else [])
    case StrList(items) => if items != [] then Err(AttributeError) else Ok([])
    case Null => Ok([])
  }

  /** The event lines of every summarised article, article by article. */
  function Events(articles: seq<Summarised>): (r: Result<seq<string>>)
    ensures r.Err? ==> r.error == AttributeError
    decreases |articles|
  {
    if articles == [] then Ok([])
    else
      match Events(articles[..|articles| - 1])
      case Err(e) => Err(e)
      case Ok(ev) =>
        match ArticleEvents(articles[|articles| - 1])
        case Err(e) => Err(e)
        case Ok(lines) => Ok(ev + lines)
  }

  /** Each event line is non-empty, trimmed and a single line. */
  lemma EventLinesFacts(text: string)
    ensures forall k :: 0 <= k < |EventLines(text)| ==>
      EventLines(text)[k] != "" && Stripped(EventLines(text)[k]) && '\n' !in EventLines(text)[k]
  {
    var pieces := Split(Strip(text), '\n');
    StrippedNonBlankItems(pieces);
    forall k | 0 <= k < |EventLines(text)| ensures '\n' !in EventLines(text)[k] {
      StrippedNonBlankFrom(pieces, '\n', k);
    }
  }

  /** The events of a list are those of its two halves, in order, and an
      exception in either half is one of the whole. */
  lemma {:induction false} EventsConcat(a: seq<Summarised>, b: seq<Summarised>)
    ensures Events(a + b).Ok? <==> Events(a).Ok? && Events(b).Ok?
    ensures Events(a + b).Ok? ==> Events(a + b).value == Events(a).value + Events(b).value
    decreases |b|
  {
    if b == [] {
      assert a + b == a;
    } else {
      var init := b[..|b| - 1];
      var last := b[|b| - 1];
      assert (a + b)[..|a + b| - 1] == a + init;
      assert (a + b)[|a + b| - 1] == last;
      EventsConcat(a, init);
      if Events(a).Ok? && Events(init).Ok? && ArticleEvents(last).Ok? {
        AppendAssoc(Events(a).value, Events(init).value, ArticleEvents(last).value);
      }
    }
  }

  lemma {:induction false} EventsErrExtends(articles: seq<Summarised>, n: nat)
    requires n <= |articles|
    requires Events(articles[..n]).Err?
    ensures Events(articles) == Events(articles[..n])
    decreases |articles| - n
  {
    if n < |articles| {
      assert articles[..n + 1][..n] == articles[..n];
      EventsErrExtends(articles, n + 1);
    } else {
      assert articles[..n] == articles;
    }
  }

  /** The loop of `generate_story_node` over the summarised articles. */
  method CollectEvents(summarised: seq<Summarised>) returns (r: Result<seq<string>>)
    ensures r == Events(summarised)
  {
    var events: seq<string> := [];
    for i := 0 to |summarised|
      invariant Events(summarised[..i]) == Ok(events)
    {
      assert summarised[..i + 1][..i] == summarised[..i];
      var lines := ArticleEvents(summarised[i]);
      if lines.Err? {
        EventsErrExtends(summarised, i + 1);
        return Err(lines.error);
      }
      events := events + lines.value;
    }
    assert summarised[..|summarised|] == summarised;
    r := Ok(events);
  }

  /** The title of the story record. */
  const StoryTitle: string := "AI-generated story"

  /** The document `create_story_from_news` files. */
  function StoryDocument(events: seq<string>, story: string): Document {
    DictDoc(map["title" := Str(StoryTitle), "events" := StrList(events), "story" := Str(story)])
  }

  /** `create_story_from_news(events)`: the chat reply, stripped, filed
      under `news_stories` with its events and returned. */
  method CreateStoryFromNews(store: DocumentStore, events: seq<string>, today: string, o: AgentOracles)
    returns (story: string)
    requires store.Valid()
    modifies store
    ensures store.Valid()
    ensures story == Strip(o.story(events)) && Stripped(story)
    ensures store.log == old(store.log) + [Write("news_stories", StoryDocument(events, story), today)]
  {
    story := Strip(o.story(events));
    StripStripped(o.story(events));
    store.AddDocument("news_stories", StoryDocument(events, story), today);
  }

  /** The record filed for a story, when it is the one kept under its id:
      the story as content and as `generated_story`, the fixed title, and
      the events. */
  lemma StoryStored(cols: Collections, events: seq<string>, story: string, today: string,
                    idOf: string -> string, upsert: bool)
    requires upsert || idOf(StoryTitle) !in Lookup(cols, NewsStories)
    ensures var after := Lookup(Added(cols, Write("news_stories", StoryDocument(events, story), today), idOf, upsert), NewsStories);
      && idOf(StoryTitle) in after
      && after[idOf(StoryTitle)].content == Str(story)
      && after[idOf(StoryTitle)].metadata["title"] == Str(StoryTitle)
      && after[idOf(StoryTitle)].metadata["events"] == StrList(events)
      && after[idOf(StoryTitle)].metadata["generated_story"] == Str(story)
  {
    var w := Write("news_stories", StoryDocument(events, story), today);
    assert CategoryOf("news_stories") == Some(NewsStories);
    var e := Prepare(w, idOf).value;
    assert e.category == NewsStories && e.id == idOf(StoryTitle);
  }

  /** A plain string handed to `add_document` files nothing. */
  lemma TextWriteIgnored(cols: Collections, category: string, text: string, today: string,
                         idOf: string -> string, upsert: bool)
    ensures Added(cols, Write(category, TextDoc(text), today), idOf, upsert) == cols
  {
  }

  /** The join of the titles in the handler succeeds: every truthy title
      is a string. */
  predicate TitlesJoinable(articles: seq<Summarised>) {
    forall k :: 0 <= k < |articles| && articles[k].title.Truthy() ==> articles[k].title.Str?
  }

  /** `generate_story_node`: the event lines of every summarised article,
      a story written and filed for them, then the story string itself
      handed to `add_document`, whose failure is swallowed. */
  method GenerateStoryNode(store: DocumentStore, s: NewsState, today: string, o: AgentOracles) returns (r: Result<NewsState>)
    requires store.Valid()
    modifies store
    ensures store.Valid()
    ensures Events(s.summarisedNews.GetOr([])).Err? ==>
      && r == Err(AttributeError)
      && store.log == old(store.log) && store.collections == old(store.collections)
    ensures Events(s.summarisedNews.GetOr([])).Ok? ==>
      var events := Events(s.summarisedNews.GetOr([])).value;
      var story := Strip(o.story(events));
      && r.Ok? && OnlyReplaced(s, r.value, Stories) && r.value.stories == Some(story)
      && store.log == old(store.log) + [Write("news_stories", StoryDocument(events, story), today)]
           + (if TitlesJoinable(s.summarisedNews.GetOr([])) then [Write("news_stories", TextDoc(story), today)] else [])
  {
    var summarised := s.summarisedNews.GetOr([]);
    var collected := CollectEvents(summarised);
    if collected.Err? {
      return Err(collected.error);
    }
    var events := collected.value;
    var story := CreateStoryFromNews(store, events, today, o);
    if TitlesJoinable(summarised) {
      store.AddDocument("news_stories", TextDoc(story), today);
    }
    r := Ok(s.(stories := Some(story)));
  }

  // ---------------------------------------------------------------------
  // The graph

  /** Every write of a news run goes to `news`. */
  lemma {:induction false} FiledCategory(runs: seq<NewsFetcher.Fetched>, today: string)
    ensures forall k :: 0 <= k < |NewsFetcher.Filed(runs, today)| ==> NewsFetcher.Filed(runs, today)[k].category == "news"
    decreases |runs|
  {
    if runs != [] {
      FiledCategory(runs[..|runs| - 1], today);
      var last := runs[|runs| - 1];
      if last.articles.Ok? {
        NewsFetcher.NewsWritesShape(last.articles.value, today);
      }
    }
  }

  /** The writes of a run, news then insights, replayed on the store: the
      read between them sees the news writes, and the stories collection
      is left as it was. */
  lemma PipelineReplay(initial: Collections, log0: seq<Write>, fetched: seq<Write>, insights: seq<Write>,
                       idOf: string -> string, upsert: bool)
    requires forall k :: 0 <= k < |fetched| ==> fetched[k].category == "news"
    requires forall k :: 0 <= k < |insights| ==> insights[k].category == "news_insights"
    ensures Replay(initial, log0 + fetched, idOf, upsert) == Replay(Replay(initial, log0, idOf, upsert), fetched, idOf, upsert)
    ensures Lookup(Replay(initial, log0 + fetched + insights, idOf, upsert), NewsStories)
         == Lookup(Replay(initial, log0, idOf, upsert), NewsStories)
  {
    ReplayAppend(initial, log0, fetched, idOf, upsert);
    AppendAssoc(log0, fetched, insights);
    ReplayAppend(initial, log0, fetched + insights, idOf, upsert);
    var ws := fetched + insights;
    forall k | 0 <= k < |ws| ensures ws[k].category != NameOf(NewsStories) {
      if k < |fetched| {
        assert ws[k] == fetched[k];
      } else {
        assert ws[k] == insights[k - |fetched|];
      }
    }
    ReplayFrame(Replay(initial, log0, idOf, upsert), ws, idOf, upsert, NewsStories);
  }

  /** The compiled graph, `extract_keywords → fetch_news → filter_articles
      → summarize → generate_story`, invoked with only `user_input` set.
      The summarize node always raises, so the run ends there with its
      ValueError, after the news and insight writes; the story node is
      never reached and no story is filed. */
  method RunPipeline(store: DocumentStore, userInput: string, today: string, o: AgentOracles)
    returns (r: Result<NewsState>, ghost rows: seq<Hit>)
    requires store.Valid()
    modifies store
    ensures store.Valid()
    ensures r == Err(ValueError("Unknown category: " + RelevantNews))
    ensures var keywords := o.insight.extractEvents(userInput);
      var fetched := NewsFetcher.TopicsWrites(SplitCommaList(keywords), today, o.providers);
      && QueryResult(rows, Lookup(Replay(old(store.collections), fetched, store.idOf, store.upsert), News), store.queryLimit)
      && store.log == old(store.log) + fetched + InsightWrites(Filtered(Str(keywords), Some(ArticlesOf(rows)), o.similarity), today)
    ensures Lookup(store.collections, NewsStories) == Lookup(old(store.collections), NewsStories)
  {
    var s1 := ExtractKeywordsNode(InitialState(userInput), o);
    var r2;
    r2, rows := FetchNewsNode(store, s1, today, o);
    ghost var topics := SplitCommaList(s1.keywords.s);
    ghost var fetched := NewsFetcher.TopicsWrites(topics, today, o.providers);
    var s3 := FilterArticlesNode(r2.value, o.similarity);
    r := SummarizeNode(store, s3, today, o);
    ghost var insights := InsightWrites(s3.filteredArticles.value, today);
    FiledCategory(NewsFetcher.Runs(topics, today, o.providers), today);
    InsightWritesCategory(s3.filteredArticles.value, today);
    PipelineReplay(store.initial, old(store.log), fetched, insights, store.idOf, store.upsert);
  }
}
