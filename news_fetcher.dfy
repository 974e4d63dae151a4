/** News retrieval: a primary provider (NewsAPI) with a fallback
    (MediaStack), the mapping of provider items to articles, the top-30
    similarity ranking, and the per-topic loop that files every fetched
    article under the `news` category. The HTTP requests are oracles: a
    provider is a function from its request parameters to a response. */
module NewsFetcher {
  import opened PyValues
  import opened PyStr
  import opened Ranking
  import opened ChromaDb

  const DefaultCountry: string := "us"
  const SimilarityTopK: nat := 30

  datatype NewsArticle = NewsArticle(title: Value, description: Value, url: Value)

  /** A provider's answer: the HTTP status and the JSON body's item lists
      by key; or the request itself raised. */
  datatype Response = Response(status: int, json: map<string, seq<Dict>>) | Raised

  /** The provider requests made, with the parameters that vary by call. */
  datatype ProviderCall =
    | NewsApiCall(query: string)
    | MediaStackCall(keywords: string, countries: string)

  datatype Providers = Providers(
    newsApi: string -> Response,
    mediaStack: (string, string) -> Response)

  /** `NewsArticle(title=a.get("title", ""), ...)`: a missing field
      becomes the empty string. */
  function ToNewsArticle(item: Dict): NewsArticle
  {
    NewsArticle(Get(item, "title", Str("")), Get(item, "description", Str("")), Get(item, "url", Str("")))
  }

  function MapItems(items: seq<Dict>): seq<NewsArticle>
  {
    if items == [] then [] else [ToNewsArticle(items[0])] + MapItems(items[1..])
  }

  /** Provider items map one-to-one and in order to articles, each field
      copied when present and "" when missing. */
  lemma {:induction false} MapItemsInOrder(items: seq<Dict>)
    ensures |MapItems(items)| == |items|
    ensures forall i :: 0 <= i < |items| ==>
      && MapItems(items)[i].title == (if "title" in items[i] then items[i]["title"] else Str(""))
      && MapItems(items)[i].description == (if "description" in items[i] then items[i]["description"] else Str(""))
      && MapItems(items)[i].url == (if "url" in items[i] then items[i]["url"] else Str(""))
    decreases |items|
  {
    if items != [] {
      MapItemsInOrder(items[1..]);
      forall i | 1 <= i < |items| ensures MapItems(items)[i] == MapItems(items[1..])[i - 1] && items[i] == items[1..][i - 1] { }
    }
  }

  /** The result of one provider function: `[]` on a non-200 status,
      otherwise the mapped items under `key` (`[]` when the key is
      missing); a raised request stays an exception. */
  function ArticlesFrom(resp: Response, key: string): Result<seq<NewsArticle>>
  {
    match resp
    case Raised => Err(RequestFailed)
    case Response(status, json) =>
      if status != 200 then Ok([])
      else Ok(MapItems(if key in json then json[key] else []))
  }

  /** `"+".join(keywords.split())`, NewsAPI's `q` parameter. */
  function FormatQuery(keywords: string): string {
    Join("+", SplitWs(keywords))
  }

  /** Every character of a word of `s` occurs in `s`. */
  lemma {:induction false} SplitWsChars(s: string, c: char)
    requires c !in s
    ensures forall k :: 0 <= k < |SplitWs(s)| ==> c !in SplitWs(s)[k]
    decreases |s|
  {
    if s != [] {
      if IsSpace(s[0]) {
        SplitWsChars(s[1..], c);
      } else {
        var n := WordLen(s);
        assert c !in s[n..];
        SplitWsChars(s[n..], c);
        assert c !in s[..n];
      }
    }
  }

  /** The NewsAPI query lists the words of the keywords: splitting it on
      "+" gives them back, provided the keywords hold a word and no "+". */
  lemma FormatQueryWords(keywords: string)
    requires '+' !in keywords && SplitWs(keywords) != []
    ensures Split(FormatQuery(keywords), '+') == SplitWs(keywords)
  {
    SplitWsChars(keywords, '+');
    SplitJoin(SplitWs(keywords), '+');
  }

  datatype Fetched = Fetched(calls: seq<ProviderCall>, articles: Result<seq<NewsArticle>>)

  /** `fetch_news_articles(keywords, date)`: NewsAPI first; MediaStack only
      when NewsAPI gave no article, and it receives `date` as its country. */
  function FetchNewsArticles(keywords: string, date: string, p: Providers): Fetched
  {
    var q := FormatQuery(keywords);
    var primary := ArticlesFrom(p.newsApi(q), "articles");
    if primary.Err? || primary.value != [] then Fetched([NewsApiCall(q)], primary)
    else Fetched([NewsApiCall(q), MediaStackCall(keywords, date)], ArticlesFrom(p.mediaStack(keywords, date), "data"))
  }

  /** The fallback policy: NewsAPI is always asked first; MediaStack is
      asked exactly when NewsAPI answered with no article (a non-200
      status, a missing key or an empty list), and then its answer is the
      result; a raised NewsAPI request is the result without a fallback. */
  lemma FallbackPolicy(keywords: string, date: string, p: Providers)
    ensures var f := FetchNewsArticles(keywords, date, p);
      && 1 <= |f.calls| <= 2
      && f.calls[0] == NewsApiCall(FormatQuery(keywords))
      && (|f.calls| == 2 <==> ArticlesFrom(p.newsApi(FormatQuery(keywords)), "articles") == Ok([]))
      && (|f.calls| == 2 ==>
           && f.calls[1] == MediaStackCall(keywords, date)
           && f.articles == ArticlesFrom(p.mediaStack(keywords, date), "data"))
      && (|f.calls| == 1 ==> f.articles == ArticlesFrom(p.newsApi(FormatQuery(keywords)), "articles"))
  {
  }

  // ---------------------------------------------------------------------
  // filter_relevant_articles

  /** Each article paired with its similarity to the keywords. The
      similarity (cosine of the sentence embeddings of the keywords and of
      `f"{title} {description}"`) is an oracle. */
  function ScoreEach(keywords: string, articles: seq<NewsArticle>, relevance: (string, NewsArticle) -> real)
    : (r: seq<Scored<NewsArticle>>)
    ensures |r| == |articles|
    ensures forall i :: 0 <= i < |r| ==> r[i] == Scored(relevance(keywords, articles[i]), articles[i])
  {
    seq(|articles|, i requires 0 <= i < |articles| => Scored(relevance(keywords, articles[i]), articles[i]))
  }

  /** The 30 best-scoring entries, best first, ties in input order. */
  function TopRelevant(scored: seq<Scored<NewsArticle>>): seq<Scored<NewsArticle>> {
    Take(SortDesc(scored), SimilarityTopK)
  }

  /** `filter_relevant_articles(keywords, articles)` */
  method FilterRelevantArticles(keywords: string, articles: seq<NewsArticle>, relevance: (string, NewsArticle) -> real)
    returns (top: seq<NewsArticle>)
    ensures top == Items(TopRelevant(ScoreEach(keywords, articles, relevance)))
    ensures |top| == (if |articles| < SimilarityTopK then |articles| else SimilarityTopK)
    ensures forall a :: a in top ==> a in articles
  {
    var scored: seq<Scored<NewsArticle>> := [];
    for i := 0 to |articles|
      invariant |scored| == i
      invariant forall j :: 0 <= j < i ==> scored[j] == Scored(relevance(keywords, articles[j]), articles[j])
    {
      var similarity := relevance(keywords, articles[i]);
      scored := scored + [Scored(similarity, articles[i])];
    }
    assert scored == ScoreEach(keywords, articles, relevance);
    var sorted := SortDesc(scored);
    top := Items(Take(sorted, SimilarityTopK));
    forall a | a in top ensures a in articles {
      var i :| 0 <= i < |top| && top[i] == a;
      assert Take(sorted, SimilarityTopK)[i] == sorted[i];
      assert sorted[i] in multiset(scored);
      var j :| 0 <= j < |scored| && scored[j] == sorted[i];
    }
  }

  /** The top-30 list is ordered by score, and an article left out scores
      no higher than any article kept. */
  lemma TopRelevantOrdered(scored: seq<Scored<NewsArticle>>)
    ensures var top := TopRelevant(scored);
      && |top| <= SimilarityTopK
      && SortedDesc(top)
      && forall x :: x in scored && x !in top ==>
           |top| == SimilarityTopK && forall y :: y in top ==> y.score >= x.score
  {
    var sorted := SortDesc(scored);
    var top := TopRelevant(scored);
    forall x | x in scored && x !in top
      ensures |top| == SimilarityTopK && forall y :: y in top ==> y.score >= x.score
    {
      assert x in multiset(sorted);
      TakeIsTop(sorted, SimilarityTopK, x);
    }
  }

  lemma {:induction false} WithScorePrefix<T>(xs: seq<Scored<T>>, n: nat, s: real)
    requires n <= |xs|
    ensures WithScore(xs[..n], s) <= WithScore(xs, s)
    decreases n
  {
    if n > 0 {
      assert xs[..n][1..] == xs[1..][..n - 1];
      WithScorePrefix(xs[1..], n - 1, s);
    }
  }

  /** Stability: the kept articles of any one score appear in input order,
      as a prefix of all the input's articles of that score. */
  lemma TopRelevantStable(scored: seq<Scored<NewsArticle>>, s: real)
    ensures WithScore(TopRelevant(scored), s) <= WithScore(scored, s)
  {
    var sorted := SortDesc(scored);
    WithScorePrefix(sorted, |TopRelevant(scored)|, s);
    SortDescStable(scored, s);
  }

  // ---------------------------------------------------------------------
  // store_news_articles / get_news_for_topic / fetch_news_topics

  /** `article.__dict__` with `date_inserted` added. */
  function NewsDocument(a: NewsArticle, today: string): Document {
    DictDoc(map["title" := a.title, "description" := a.description, "url" := a.url, "date_inserted" := Str(today)])
  }

  function NewsWrite(a: NewsArticle, today: string): Write {
    Write("news", NewsDocument(a, today), today)
  }

  /** The `news` writes of `store_news_articles`: one per article, in order. */
  function NewsWrites(articles: seq<NewsArticle>, today: string): seq<Write>
  {
    if articles == [] then []
    else NewsWrites(articles[..|articles| - 1], today) + [NewsWrite(articles[|articles| - 1], today)]
  }

  /** Each article is filed once, in order, under `news`, with its title,
      description and url and the day's date. */
  lemma {:induction false} NewsWritesShape(articles: seq<NewsArticle>, today: string)
    ensures |NewsWrites(articles, today)| == |articles|
    ensures forall i :: 0 <= i < |articles| ==>
      NewsWrites(articles, today)[i] == Write("news", NewsDocument(articles[i], today), today)
    decreases |articles|
  {
    if articles != [] {
      var init := articles[..|articles| - 1];
      NewsWritesShape(init, today);
      forall i | 0 <= i < |init| ensures init[i] == articles[i] { }
    }
  }

  method StoreNewsArticles(store: DocumentStore, articles: seq<NewsArticle>, today: string)
    requires store.Valid()
    modifies store
    ensures store.Valid()
    ensures store.log == old(store.log) + NewsWrites(articles, today)
  {
    for i := 0 to |articles|
      invariant store.log == old(store.log) + NewsWrites(articles[..i], today)
      invariant store.Valid()
    {
      assert articles[..i + 1][..i] == articles[..i];
      store.AddDocument("news", NewsDocument(articles[i], today), today);
    }
    assert articles[..|articles|] == articles;
  }

  /** What one fetch files: its articles, or nothing when a provider
      request raised. */
  function FiledWrites(fetched: Result<seq<NewsArticle>>, today: string): seq<Write> {
    match fetched
    case Ok(articles) => NewsWrites(articles, today)
    case Err(_) => []
  }

  /** `get_news_for_topic(topic, date)`: fetch, then file what was fetched.
      `status` is Err when a provider request raised. */
  method GetNewsForTopic(store: DocumentStore, topic: string, date: string, today: string, p: Providers)
    returns (calls: seq<ProviderCall>, status: Result<()>)
    requires store.Valid()
    modifies store
    ensures store.Valid()
    ensures calls == FetchNewsArticles(topic, date, p).calls
    ensures status.Err? <==> FetchNewsArticles(topic, date, p).articles.Err?
    ensures store.log == old(store.log) + FiledWrites(FetchNewsArticles(topic, date, p).articles, today)
  {
    var fetched := FetchNewsArticles(topic, date, p);
    calls := fetched.calls;
    match fetched.articles
    case Err(e) =>
      status := Err(e);
    case Ok(raw) =>
      StoreNewsArticles(store, raw, today);
      status := Ok(());
  }

  /** The fetch of each topic of a run, in order; the clock's date is the
      `date` of every fetch. */
  function Runs(topics: seq<string>, today: string, p: Providers): seq<Fetched>
  {
    if topics == [] then []
    else Runs(topics[..|topics| - 1], today, p) + [FetchNewsArticles(topics[|topics| - 1], today, p)]
  }

  /** What a run files, fetch by fetch. */
  function Filed(runs: seq<Fetched>, today: string): seq<Write>
  {
    if runs == [] then []
    else Filed(runs[..|runs| - 1], today) + FiledWrites(runs[|runs| - 1].articles, today)
  }

  /** The provider requests of a run, in order. */
  function CallsOf(runs: seq<Fetched>): seq<ProviderCall>
  {
    if runs == [] then []
    else CallsOf(runs[..|runs| - 1]) + runs[|runs| - 1].calls
  }

  lemma RunStep(runs: seq<Fetched>, f: Fetched, today: string)
    ensures Filed(runs + [f], today) == Filed(runs, today) + FiledWrites(f.articles, today)
    ensures CallsOf(runs + [f]) == CallsOf(runs) + f.calls
  {
    assert (runs + [f])[..|runs|] == runs;
  }

  lemma {:induction false} FiledAppend(a: seq<Fetched>, b: seq<Fetched>, today: string)
    ensures Filed(a + b, today) == Filed(a, today) + Filed(b, today)
    decreases |b|
  {
    if b == [] {
      assert a + b == a;
    } else {
      var init := b[..|b| - 1];
      var last := FiledWrites(b[|b| - 1].articles, today);
      assert (a + b)[..|a + b| - 1] == a + init;
      assert (a + b)[|a + b| - 1] == b[|b| - 1];
      assert Filed(a + b, today) == Filed(a + init, today) + last;
      FiledAppend(a, init, today);
      assert Filed(b, today) == Filed(init, today) + last;
      AppendAssoc(Filed(a, today), Filed(init, today), last);
    }
  }

  /** The writes of a run over several topics, topic by topic. */
  function TopicsWrites(topics: seq<string>, today: string, p: Providers): seq<Write>
  {
    Filed(Runs(topics, today, p), today)
  }

  lemma {:induction false} RunsAppend(a: seq<string>, b: seq<string>, today: string, p: Providers)
    ensures Runs(a + b, today, p) == Runs(a, today, p) + Runs(b, today, p)
    decreases |b|
  {
    if b == [] {
      assert a + b == a;
    } else {
      var init := b[..|b| - 1];
      var last := [FetchNewsArticles(b[|b| - 1], today, p)];
      assert (a + b)[..|a + b| - 1] == a + init;
      assert (a + b)[|a + b| - 1] == b[|b| - 1];
      assert Runs(a + b, today, p) == Runs(a + init, today, p) + last;
      RunsAppend(a, init, today, p);
      assert Runs(b, today, p) == Runs(init, today, p) + last;
      AppendAssoc(Runs(a, today, p), Runs(init, today, p), last);
    }
  }

  lemma RunsStep(topics: seq<string>, i: nat, today: string, p: Providers)
    requires i < |topics|
    ensures Runs(topics[..i + 1], today, p) == Runs(topics[..i], today, p) + [FetchNewsArticles(topics[i], today, p)]
  {
    assert topics[..i + 1][..i] == topics[..i];
  }

  /** A fetch that raised files nothing, wherever it sits in a run. */
  lemma FiledSkip(rb: seq<Fetched>, f: Fetched, ra: seq<Fetched>, today: string)
    requires f.articles.Err?
    ensures Filed(rb + [f] + ra, today) == Filed(rb + ra, today)
  {
    assert [f][..0] == [];
    assert Filed([f], today) == [];
    FiledAppend(rb + [f], ra, today);
    FiledAppend(rb, [f], today);
    FiledAppend(rb, ra, today);
  }

  /** Failure isolation: a topic whose provider request raised files
      nothing and changes nothing for the topics before or after it. */
  lemma FailedTopicIsolated(before: seq<string>, t: string, after: seq<string>, today: string, p: Providers)
    requires FetchNewsArticles(t, today, p).articles.Err?
    ensures TopicsWrites(before + [t] + after, today, p) == TopicsWrites(before + after, today, p)
  {
    RunsAppend(before + [t], after, today, p);
    RunsAppend(before, [t], today, p);
    RunsAppend(before, after, today, p);
    assert [t][..0] == [];
    FiledSkip(Runs(before, today, p), FetchNewsArticles(t, today, p), Runs(after, today, p), today);
  }

  /** One more topic of a run: its requests join the calls... */
  lemma TopicCallsStep(topics: seq<string>, i: nat, today: string, p: Providers, calls: seq<ProviderCall>)
    requires i < |topics|
    requires calls == CallsOf(Runs(topics[..i], today, p))
    ensures calls + FetchNewsArticles(topics[i], today, p).calls == CallsOf(Runs(topics[..i + 1], today, p))
  {
    RunsStep(topics, i, today, p);
    RunStep(Runs(topics[..i], today, p), FetchNewsArticles(topics[i], today, p), today);
  }

  /** ...and its writes join the log. */
  lemma TopicWritesStep(topics: seq<string>, i: nat, today: string, p: Providers,
                        base: seq<Write>, before: seq<Write>, after: seq<Write>)
    requires i < |topics|
    requires before == base + Filed(Runs(topics[..i], today, p), today)
    requires after == before + FiledWrites(FetchNewsArticles(topics[i], today, p).articles, today)
    ensures after == base + Filed(Runs(topics[..i + 1], today, p), today)
  {
    RunsStep(topics, i, today, p);
    FiledStep(base, Runs(topics[..i], today, p), FetchNewsArticles(topics[i], today, p), today, before, after);
  }

  lemma FiledStep(base: seq<Write>, runs: seq<Fetched>, f: Fetched, today: string, before: seq<Write>, after: seq<Write>)
    requires before == base + Filed(runs, today)
    requires after == before + FiledWrites(f.articles, today)
    ensures after == base + Filed(runs + [f], today)
  {
    RunStep(runs, f, today);
    AppendAssoc(base, Filed(runs, today), FiledWrites(f.articles, today));
  }

  /** The loop of `fetch_news_topics` over its topic list: each topic in
      order, an exception ending only that topic. */
  method FetchTopicList(store: DocumentStore, topics: seq<string>, today: string, p: Providers)
    returns (calls: seq<ProviderCall>)
    requires store.Valid()
    modifies store
    ensures store.Valid()
    ensures calls == CallsOf(Runs(topics, today, p))
    ensures store.log == old(store.log) + TopicsWrites(topics, today, p)
  {
    calls := [];
    for i := 0 to |topics|
      invariant calls == CallsOf(Runs(topics[..i], today, p))
      invariant store.log == old(store.log) + Filed(Runs(topics[..i], today, p), today)
      invariant store.Valid()
    {
      ghost var before := store.log;
      var topicCalls, status := GetNewsForTopic(store, topics[i], today, today, p);
      TopicCallsStep(topics, i, today, p, calls);
      TopicWritesStep(topics, i, today, p, old(store.log), before, store.log);
      calls := calls + topicCalls;
    }
    assert topics[..|topics|] == topics;
  }

  /** `fetch_news_topics(news_topics)`: split on commas, trim, drop blanks,
      then fetch and file each topic. The clock's date is both the
      MediaStack country and `date_inserted`. */
  method FetchNewsTopics(store: DocumentStore, newsTopics: string, today: string, p: Providers)
    returns (calls: seq<ProviderCall>)
    requires store.Valid()
    modifies store
    ensures store.Valid()
    ensures calls == CallsOf(Runs(SplitCommaList(newsTopics), today, p))
    ensures store.log == old(store.log) + TopicsWrites(SplitCommaList(newsTopics), today, p)
  {
    calls := FetchTopicList(store, SplitCommaList(newsTopics), today, p);
  }
}
