# NewsSummariser core, modelled in Dafny

NewsSummariser turns a user's free-text request into a news story. It runs as a
five-node graph over one state record (`NewsState`):

1. An LLM extracts keywords from the request.
2. News is fetched for those keywords and filed in a ChromaDB document store. The
   stored `news` rows are read back.
3. The nodes are meant to keep the rows whose title is close enough to a keyword,
   by sentence-embedding cosine similarity, best first, at most 15.
4. Each kept article is meant to be downloaded, summarised and filed under
   `news_insights` by the insight agent, and the stored summaries read back.
5. An LLM is meant to write a story from the stored event lines, filed under
   `news_stories`.

Steps 3 to 5 do not do what they are meant to, for reasons listed below. The
keywords reach step 3 as single characters. No summary is ever stored. Step 4 reads
a collection that does not exist and raises, so step 5 is never reached.

This project models that core in Dafny 4.11, in seven modules:

- `PyValues`: Python values and exceptions.
- `PyStr`: `str.strip`, `str.split` and `str.join`.
- `Ranking`: the stable descending sort, and the top-K cut both relevance filters use.
- `ChromaDb`: the store, as the class `DocumentStore`.
- `NewsFetcher`: `agents/fetchers/news_fetcher.py`.
- `InsightAgent`: `agents/insight_agent.py`.
- `FetchAgent`: `agents/fetch_agent.py` and the two `openai_agent.py` entry points it calls.

Each Python function that keeps local state in a loop is a `method` with a loop. It is
proved against a function that specifies it. The store is a class whose
`collections` field the methods update. A ghost `log` of every `add_document` call
comes with an invariant: the collections are the log replayed on the initial
collections.

Services the model cannot see into are parameters:

- HTTP responses of the two news providers;
- page download and HTML text extraction;
- the sentence tokenizer;
- the summariser;
- the chat model, both as event/keyword extractor and as story writer;
- the cosine similarity of two texts;
- MD5 (`idOf`);
- the clock's date (`today`).

The model follows the code where the code and its own docstrings disagree.
These behaviours of the code are modelled and proved as written:

- `fetch_news_articles` asks NewsAPI first and MediaStack only when NewsAPI returned
  no article. Its docstring says the opposite order. MediaStack receives the date
  string as its `countries` parameter.
- Node 1 stores the extractor's reply, one string, as `keywords`. Node 3 then iterates
  over that string's characters, so each keyword is one non-space character
  (`FetchAgent.KeywordsOfString`).
- Node 3 sorts `(score, article)` tuples. Two different article dicts with the same
  score make the sort compare dicts, which raises. The handler then sets
  `filtered_articles` to `[]`.
- `generate_insights_for_topic` subscripts the list returned by
  `build_insight_pipeline` with a string. That raises for every URL, and the per-URL
  handler swallows it. The stored `summaries` and `events` are therefore always empty.
  `events` is also built from the summaries.
- Node 4 reads the category `relevant_news`, which does not exist, so it always raises
  `ValueError`. The graph therefore ends at node 4 (`FetchAgent.RunPipeline`). Node 5
  is modelled on its own (`FetchAgent.GenerateStoryNode`).
- Node 5 passes the story string itself to `add_document`. That call files nothing:
  `document["title"]` on a string raises, and the error is swallowed.

## Model

| member | source | states |
|---|---|---|
| ChromaDb.CategoryOf | storage/chroma_db.py:10-14 | a category name resolves exactly when it is one of the three collection keys, and to the category of that name |
| ChromaDb.JoinedUrlsRoundTrip | storage/chroma_db.py:99-101 | a list of trimmed, non-empty, comma-free URLs is stored as one string, and the comma-list split gives the list back |
| ChromaDb.Prepare | storage/chroma_db.py:78-116 | a write is fileable iff the category is known and the document is a dict with a string title; an unknown category is `ValueError("Unknown category: …")`; a filed record has id `idOf(title)`, `date_inserted` = today and the title in its metadata |
| ChromaDb.ReplayAppend | storage/chroma_db.py:72-128 | replaying two runs of `add_document` one after the other equals replaying their concatenation |
| ChromaDb.AddedFrame | storage/chroma_db.py:119-123 | one `add_document` leaves every other collection unchanged, and in its own collection every other id keeps both its presence and its record |
| ChromaDb.NewsRecordStored | storage/chroma_db.py:110-116 | a filed `news` article is stored with its title as content, and title, description and url in the metadata, description and url `""` when the document lacks them |
| ChromaDb.InsightUrlsJoined | storage/chroma_db.py:98-101 | an insight's list of URLs becomes the `urls` metadata joined by ", ", and clean URLs are recovered from it by the comma-list split |
| ChromaDb.InsightUrlListStored | storage/chroma_db.py:98-108 | a filed insight whose `urls` is a list is stored under its title's id, with the title as content and the joined list as `urls` |
| ChromaDb.ReplayFrame | storage/chroma_db.py:79-82 | writes naming other categories never change a collection |
| ChromaDb.AddIdempotent | storage/chroma_db.py:83 | filing the same document twice has the effect of filing it once |
| ChromaDb.SameTitleOneRecord | storage/chroma_db.py:68-69 | two documents with the same title in one category share an id: the collection keeps one record, the second or the first as `add` replaces or keeps |
| ChromaDb.ReplayKeepsDated | storage/chroma_db.py:84-87 | every stored record carries `date_inserted` after any sequence of writes, when it did before |
| ChromaDb.DocumentStore.constructor | storage/chroma_db.py:10-14 | the store starts with the collections the server holds, an empty log and the invariant |
| ChromaDb.DocumentStore.AddDocument | storage/chroma_db.py:72-128 | never raises; appends the call to the log and applies it, so an unfileable document leaves the collections unchanged; keeps records dated |
| ChromaDb.DocumentStore.GetDocuments | storage/chroma_db.py:131-135 | raises `ValueError("Unknown category: …")` exactly for an unknown category; otherwise returns min(query limit, collection size) distinct records stored in that collection |
| NewsFetcher.MapItemsInOrder | agents/fetchers/news_fetcher.py:53-59 | provider items map one-to-one, in order, to articles; a missing field becomes `""` |
| NewsFetcher.FormatQueryWords | agents/fetchers/news_fetcher.py:69 | splitting the NewsAPI query on `+` gives back the whitespace-separated keywords |
| NewsFetcher.FallbackPolicy | agents/fetchers/news_fetcher.py:104-109 | NewsAPI is always asked first; MediaStack is asked exactly when NewsAPI gave no article, and then its answer is the result |
| NewsFetcher.FilterRelevantArticles | agents/fetchers/news_fetcher.py:112-135 | returns min(30, n) of the given articles, in the order of a stable descending sort by score |
| NewsFetcher.TopRelevantOrdered | agents/fetchers/news_fetcher.py:129-133 | the top list is descending, at most 30 long, and any article left out scores no higher than every article kept |
| NewsFetcher.TopRelevantStable | agents/fetchers/news_fetcher.py:129 | articles of equal score keep their input order |
| NewsFetcher.NewsWritesShape | agents/fetchers/news_fetcher.py:138-143 | one `news` write per article, in order, with the article's fields and today's date |
| NewsFetcher.StoreNewsArticles | agents/fetchers/news_fetcher.py:138-143 | the log grows by exactly those writes |
| NewsFetcher.GetNewsForTopic | agents/fetchers/news_fetcher.py:146-150 | makes the calls of the fallback policy; files the fetched articles, or nothing and an error when a provider request raised |
| NewsFetcher.FiledAppend | agents/fetchers/news_fetcher.py:159-164 | the writes of two runs of topics are the writes of each, concatenated |
| NewsFetcher.RunsAppend | agents/fetchers/news_fetcher.py:159-162 | topics are fetched independently and in order |
| NewsFetcher.FailedTopicIsolated | agents/fetchers/news_fetcher.py:160-164 | a topic whose fetch raised files nothing and leaves the other topics' writes as they would be without it |
| NewsFetcher.FetchTopicList | agents/fetchers/news_fetcher.py:159-164 | every topic is fetched in order, and the log grows by the writes of every fetch that did not raise |
| NewsFetcher.FetchNewsTopics | agents/fetchers/news_fetcher.py:153-164 | the topics are the trimmed non-blank comma-separated parts of the input; the log grows as for that list |
| InsightAgent.ChunkText | agents/insight_agent.py:28-39 | the loop computes the chunks of the sentences under the budget test as written |
| InsightAgent.Chunks | agents/insight_agent.py:28-39 | no sentence gives no chunk |
| InsightAgent.PackShape | agents/insight_agent.py:30-36 | the open chunk holds the sentences since the last flush, space-joined, and flushed groups plus the open group are the sentences in order |
| InsightAgent.PackWords | agents/insight_agent.py:30-38 | the words of the chunks, then of the open chunk, are the words of the sentences |
| InsightAgent.ChunksKeepWords | agents/insight_agent.py:28-39 | chunking neither loses, duplicates nor reorders a word |
| InsightAgent.ChunksPartition | agents/insight_agent.py:28-39 | the chunks come from consecutive groups of sentences that together are all of them |
| InsightAgent.ChunkOfGroup | agents/insight_agent.py:33-38 | each chunk is its group of sentences, space-joined and stripped |
| InsightAgent.PackGroupBound | agents/insight_agent.py:32 | a group of two or more sentences has at most the rule's bound of words |
| InsightAgent.ChunkWordBound | agents/insight_agent.py:32 | a chunk made of two or more sentences has at most `max_tokens` words under the intended test, `max_tokens + 1` as written |
| InsightAgent.IntendedChunksNonEmpty | agents/insight_agent.py:34-36 | under the intended test no chunk is made from no sentence |
| InsightAgent.ChunkOverflowExample | agents/insight_agent.py:32 | with budget 1 the sentences "a" and "b" become the one chunk "a b" of two words |
| InsightAgent.OverBudgetFirstChunkEmpty | agents/insight_agent.py:31-38 | as written, whenever the first sentence has more words than the budget, the first chunk returned is `""` |
| InsightAgent.EmptyFirstChunkExample | agents/insight_agent.py:34-36 | one instance: the sentence "a b" at budget 1 gives the chunks `["", "a b"]` |
| InsightAgent.NormalizeChars | agents/insight_agent.py:46 | a normal form holds only lower-case word characters |
| InsightAgent.NormalizeIdempotent | agents/insight_agent.py:46 | normalising twice is normalising once |
| InsightAgent.DeduplicateArticles | agents/insight_agent.py:42-50 | the loop computes the first-occurrence deduplication |
| InsightAgent.DedupNormals | agents/insight_agent.py:42-50 | deduplication keeps every normal form present |
| InsightAgent.DedupDistinct | agents/insight_agent.py:47-49 | the kept articles have pairwise different normal forms |
| InsightAgent.DedupSubseq | agents/insight_agent.py:45-49 | the kept articles are a subsequence of the input |
| InsightAgent.DedupKeepsFirst | agents/insight_agent.py:47-49 | the first article of each normal form is kept |
| InsightAgent.DedupOfDistinct | agents/insight_agent.py:42-50 | a list of distinct normal forms is returned unchanged |
| InsightAgent.DedupIdempotent | agents/insight_agent.py:42-50 | deduplicating twice is deduplicating once |
| InsightAgent.ExtractArticle | agents/insight_agent.py:16-26 | the text is stripped, and `""` when the page could not be read |
| InsightAgent.Summaries | agents/insight_agent.py:55 | one summary per chunk, in order |
| InsightAgent.SummarizeArticle | agents/insight_agent.py:53-56 | the summaries of the chunks, space-joined; `""` for a text with no sentence |
| InsightAgent.BuildInsightPipeline | agents/insight_agent.py:59-76 | exactly one insight: the URL, the summary of its page's text and that text's events |
| InsightAgent.ProcessUrls | agents/insight_agent.py:92-99 | subscripting the pipeline's list result with a str raises TypeError, so every URL fails and no summary is gathered |
| InsightAgent.GenerateInsightsForTopic | agents/insight_agent.py:79-113 | a URL argument without `split` writes nothing; otherwise exactly one `news_insights` write, listing the parsed URLs with empty summaries |
| InsightAgent.UrlListRoundTrip | agents/insight_agent.py:82-88 | parsed URLs are trimmed, non-empty and comma-free, and splitting the stored comma join gives them back; a list of other than one URL is used as is |
| InsightAgent.InsightRecordStored | storage/chroma_db.py:98-108 | the topic's insight record holds the title as content, the joined URLs, empty summaries and events, and today's date |
| FetchAgent.ExtractKeywordsNode | agents/fetch_agent.py:25-29 | only `keywords` changes, to the extractor's reply for the request |
| FetchAgent.ArticlesFromRows | agents/fetch_agent.py:40-47 | the loop builds exactly those articles |
| FetchAgent.FiledNewsArticle | agents/fetch_agent.py:41-47 | an article read back from `news` has its stored title as title and text, its stored URL, and `""` as source |
| FetchAgent.FetchNewsNode | agents/fetch_agent.py:32-50 | missing or non-string keywords raise before any write; otherwise the topics are filed, the `news` rows are read back after the writes, and only `news_articles` changes, to those rows |
| FetchAgent.NonSpaceChars | agents/fetch_agent.py:58-60 | each cleaned keyword is one non-space character of the string |
| FetchAgent.KeywordsOfString | agents/fetch_agent.py:58-60 | cleaning a string's characters gives its non-space characters |
| FetchAgent.MaxSim | agents/fetch_agent.py:76-77 | the best similarity is at least every keyword's, and attained by one |
| FetchAgent.Score | agents/fetch_agent.py:67-82 | a non-string title raises; a blank one is skipped; a non-blank one with no keyword raises; otherwise the article is kept with its best similarity exactly when that is at least 0.4 |
| FetchAgent.CandidatesErrExtends | agents/fetch_agent.py:67-82 | once the loop raised, later articles do not change the outcome |
| FetchAgent.CandidatesKept | agents/fetch_agent.py:67-82 | each kept pair is an input article with its own score |
| FetchAgent.CandidatesComplete | agents/fetch_agent.py:67-82 | when the loop completes, every article that scores is kept |
| FetchAgent.CandidatesNoKeywords | agents/fetch_agent.py:67-82 | with no keyword, a loop that completes keeps nothing |
| FetchAgent.BlankTitleIgnored | agents/fetch_agent.py:68-70 | a blank-titled article can be removed without changing the outcome |
| FetchAgent.PythonSortAgrees | agents/fetch_agent.py:85 | when equal scores carry equal articles, any descending rearrangement of the pairs is the model's sort |
| FetchAgent.RankedSound | agents/fetch_agent.py:53-92 | at most 15 pairs, descending; each is an input article with a non-blank title, scoring its best similarity to non-empty keywords, at least 0.4 |
| FetchAgent.RankedComplete | agents/fetch_agent.py:81-85 | an article that scores is kept, or beaten by 15 kept articles scoring at least as high |
| FetchAgent.NoKeywordsNothingKept | agents/fetch_agent.py:58-63 | blank keywords keep no article |
| FetchAgent.ScoreArticles | agents/fetch_agent.py:67-82 | the loop computes the candidates, stopping at the first exception |
| FetchAgent.FilterArticlesNode | agents/fetch_agent.py:53-92 | only `filtered_articles` changes, to the ranked articles, or `[]` when anything raised |
| FetchAgent.StrUrlInsightWrite | agents/fetch_agent.py:97-98 | an article with a string URL gives one insight write, titled by the article, with the URL split on commas |
| FetchAgent.InsightWritesShape | agents/fetch_agent.py:97-98 | with string URLs, one insight write per filtered article, in order |
| FetchAgent.InsightWritesCategory | agents/fetch_agent.py:97-98 | every insight write is under `news_insights` |
| FetchAgent.SummarizeNode | agents/fetch_agent.py:95-111 | missing `filtered_articles` raises KeyError before any write; otherwise one insight run per article, then `ValueError("Unknown category: relevant_news")` |
| FetchAgent.Events | agents/fetch_agent.py:118-123 | the only exception is AttributeError |
| FetchAgent.EventLinesFacts | agents/fetch_agent.py:122 | each event line is non-empty, trimmed and one line |
| FetchAgent.EventsConcat | agents/fetch_agent.py:118-123 | the events of two lists of articles are the events of each, concatenated, and fail iff either does |
| FetchAgent.EventsErrExtends | agents/fetch_agent.py:118-123 | once the loop raised, later articles do not change the outcome |
| FetchAgent.CollectEvents | agents/fetch_agent.py:118-123 | the loop computes the events |
| FetchAgent.CreateStoryFromNews | agents/openai_agent.py:19-59 | returns the stripped chat reply and files it under `news_stories` with its events |
| FetchAgent.StoryStored | agents/openai_agent.py:50-57 | the story record holds the story as content and `generated_story`, the fixed title and the events |
| FetchAgent.TextWriteIgnored | agents/fetch_agent.py:137-142 | a string passed as the document files nothing |
| FetchAgent.GenerateStoryNode | agents/fetch_agent.py:114-145 | an article whose `events` is a non-empty list raises AttributeError before any write; otherwise the story is written and filed, only `stories` changes, and the second `add_document` is made only when the titles can be joined |
| FetchAgent.FiledCategory | agents/fetchers/news_fetcher.py:143 | every write of the news fetch is under `news` |
| FetchAgent.PipelineReplay | agents/fetch_agent.py:147-163 | the read in node 2 sees the news writes, and the pipeline's writes leave `news_stories` as it was |
| FetchAgent.RunPipeline | agents/fetch_agent.py:147-163 | a run ends in `ValueError("Unknown category: relevant_news")` after the news writes and one insight write per filtered article; no story is filed |
| Ranking.SortDesc | agents/fetchers/news_fetcher.py:129 | the result is a descending permutation of the input |
| Ranking.SortDescStable | agents/fetchers/news_fetcher.py:129 | entries of equal score keep their input order |
| Ranking.SortedPermutationUnique | agents/fetch_agent.py:85 | with equal scores carrying equal entries, two descending permutations of one list are equal |
| Ranking.TakeIsTop | agents/fetch_agent.py:85 | an entry cut from a descending list scores no higher than any entry kept, and the cut list is full |
| PyStr.SplitCommaListJoin | agents/fetchers/news_fetcher.py:154 | trimmed, non-empty, comma-free items survive a comma join and the trimmed split |
| PyStr.SplitWsJoinSpace | agents/insight_agent.py:32-33 | the words of space-joined texts are the words of each text, concatenated |
| PyStr.StripIdempotent | agents/insight_agent.py:23 | stripping twice is stripping once |

## Left out

- HTTP requests, HTML parsing, the sentence-embedding model, the tokenizer, the
  summariser, the chat model, MD5 and the clock are function parameters. Their
  internals are not modelled.
- Printing and logging are not modelled.
- LangGraph is modelled as the plain composition of the five nodes it runs in order.
- ChromaDB's `add` on an existing id is a parameter of the store (`upsert`): replace,
  or keep the first record.
- ChromaDB's `query(query_texts=["*"])` is modelled as any choice of up to the query
  limit of distinct stored records. Which records the embedding search ranks first is
  not modelled.
- ChromaDB's refusal of list-valued metadata (the `events` list of a story) is not
  modelled: the record is stored.
- Python's `str.lower` and the `\W` class of `re` are exact for ASCII and Latin-1
  only. Above U+0080, only listed space and punctuation ranges count as non-word
  characters.
- FetchAgent.NewsState: a key not yet set is `Null` or `None`. A state key explicitly
  set to `None` is not distinguished from an absent one.
- FetchAgent.UrlArg: a one-element list holding a non-string URL is modelled as
  `Null`. Both fail on `split` with AttributeError before any write.
- The row mapping of `summarize_node` (agents/fetch_agent.py:102-109) is not
  modelled: it is unreachable, because the read before it always raises.
- `extract_structured_events` and `create_story_from_news` are oracles (the
  extractor and the story writer). Their prompt text and the keyword/event mode
  switch are not modelled.
- `showcollectioncount`, `showCollections`, `clear_youtube_collection`, the
  controller and the UI are not modelled: they are outside the modelled core.
- `fetch_from_newsapi` computes the date range from the clock. That only reaches
  the provider oracle, and is not modelled.

## Findings

| source | as written | input that shows it | evidently intended | confidence | as-written member | corrected member |
|---|---|---|---|---|---|---|
| agents/insight_agent.py:32 | the budget test counts the words of `current_chunk + sentence` without the joining space, so the last word of the chunk and the first word of the sentence count as one | `max_tokens=1`, sentences "a" and "b": one chunk "a b" of two words | a chunk never exceeds `max_tokens` words (test `current_chunk + " " + sentence`) | not executed | InsightAgent.ChunkOverflowExample | InsightAgent.ChunkWordBound |
| agents/insight_agent.py:34-36 | a first sentence over the budget flushes the still-empty chunk | `max_tokens=1`, the sentence "a b": chunks `["", "a b"]` | only a chunk that holds a sentence is flushed | not executed | InsightAgent.OverBudgetFirstChunkEmpty | InsightAgent.IntendedChunksNonEmpty |

The model's `chunk_text` (`InsightAgent.ChunkText`) keeps the test as written. The chunk summaries it feeds never reach the store, because `generate_insights_for_topic` drops every summary, so the choice changes no stored outcome. The intended rule (`InsightAgent.Rule.Intended`) is defined beside it, and both corrected properties are proved for it.
