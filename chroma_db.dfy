/** The document store adapter: three named collections of records, a
    record id derived from the document title, per-category rules that build
    a record's metadata and content, a write that swallows every error, and
    a read that fails fast on an unknown category. */
module ChromaDb {
  import opened PyValues
  import opened PyStr

  /** The keys of `collections`. */
  datatype Category = News | NewsInsights | NewsStories

  function NameOf(c: Category): string {
    match c
    case News => "news"
    case NewsInsights => "news_insights"
    case NewsStories => "news_stories"
  }

  /** `category in collections`, resolved to the collection's key. */
  function CategoryOf(name: string): (c: Option<Category>)
    ensures c.Some? ==> NameOf(c.value) == name
    ensures forall k: Category :: NameOf(k) == name ==> c == Some(k)
  {
    if name == "news" then Some(News)
    else if name == "news_insights" then Some(NewsInsights)
    else if name == "news_stories" then Some(NewsStories)
    else None
  }

  /** What callers hand to `add_document`: normally a dict, but one caller
      hands over a plain string. */
  datatype Document = DictDoc(fields: Dict) | TextDoc(text: string)

  datatype Record = Record(content: Value, metadata: Dict)

  /** One collection: record id to (content, metadata). */
  type Collection = map<string, Record>

  type Collections = map<Category, Collection>

  function Lookup(cols: Collections, c: Category): Collection {
    if c in cols then cols[c] else map[]
  }

  /** A record ready to be added, with the collection and id it goes to. */
  datatype Entry = Entry(category: Category, id: string, record: Record)

  /** One call of `add_document`: the category name, the document, and the
      date the clock gave. */
  datatype Write = Write(category: string, document: Document, today: string)

  /** `urls` for an insight: a list is joined with ", ", anything else kept. */
  function JoinedUrls(v: Value): (r: Value)
    ensures v.StrList? ==> r == Str(Join(", ", v.items))
    ensures !v.StrList? ==> r == v
  {
    if v.StrList? then Str(Join(", ", v.items)) else v
  }

  /** A list of clean URLs stored as its ", " join is read back by the
      comma-list split the insight agent applies to URL strings. */
  lemma JoinedUrlsRoundTrip(items: seq<string>)
    requires forall k :: 0 <= k < |items| ==> items[k] != "" && Stripped(items[k]) && ',' !in items[k]
    ensures JoinedUrls(StrList(items)).Str?
    ensures SplitCommaList(JoinedUrls(StrList(items)).s) == items
  {
    SplitCommaListJoinSpaced(items);
  }

  /** The per-category metadata and content of a record. */
  function BuildRecord(cat: Category, d: Dict, today: string): Record
  {
    match cat
    case NewsStories =>
      Record(
        Get(d, "story", Get(d, "events", Str(""))),
        map[
          "date_inserted" := Str(today),
          "title" := Get(d, "title", Str("AI-generated story")),
          "events" := Get(d, "events", Str("")),
          "generated_story" := Get(d, "story", Str(""))
        ])
    case NewsInsights =>
      var urls := JoinedUrls(Get(d, "urls", StrList([])));
      Record(
        Get(d, "title", urls),
        map[
          "date_inserted" := Str(today),
          "title" := Get(d, "title", Str("")),
          "urls" := urls,
          "summaries" := Get(d, "summaries", StrList([])),
          "events" := Get(d, "events", StrList([]))
        ])
    case News =>
      Record(
        Get(d, "title", Str("")),
        map[
          "date_inserted" := Str(today),
          "title" := Get(d, "title", Str("")),
          "description" := Get(d, "description", Str("")),
          "url" := Get(d, "url", Str(""))
        ])
  }

  /** The steps of `add_document` before `collection.add`: the category
      check, the id from `document["title"]` (which needs a dict holding a
      string title), and the record. */
  function Prepare(w: Write, idOf: string -> string): (r: Result<Entry>)
    ensures r.Ok? <==>
      CategoryOf(w.category).Some? && w.document.DictDoc?
      && "title" in w.document.fields && w.document.fields["title"].Str?
    ensures CategoryOf(w.category).None? ==> r == Err(ValueError("Unknown category: " + w.category))
    ensures r.Ok? ==>
      var title := w.document.fields["title"];
      && NameOf(r.value.category) == w.category
      && r.value.id == idOf(title.s)
      && "date_inserted" in r.value.record.metadata
      && r.value.record.metadata["date_inserted"] == Str(w.today)
      && "title" in r.value.record.metadata
      && r.value.record.metadata["title"] == title
  {
    var cat := CategoryOf(w.category);
    if cat.None? then Err(ValueError("Unknown category: " + w.category))
    else match w.document
      case TextDoc(_) => Err(TypeError)
      case DictDoc(d) =>
        if "title" !in d then Err(KeyError("title"))
        else if !d["title"].Str? then Err(AttributeError)
        else Ok(Entry(cat.value, idOf(d["title"].s), BuildRecord(cat.value, d, w.today)))
  }

  /** `collection.add` with one id: `upsert` says whether an existing id is
      replaced or the first record kept. */
  function Put(coll: Collection, id: string, rec: Record, upsert: bool): Collection {
    if id in coll && !upsert then coll else coll[id := rec]
  }

  /** The collections after one `add_document` call. */
  function Added(cols: Collections, w: Write, idOf: string -> string, upsert: bool): Collections {
    match Prepare(w, idOf)
    case Err(_) => cols
    case Ok(e) => cols[e.category := Put(Lookup(cols, e.category), e.id, e.record, upsert)]
  }

  /** The collections after a sequence of `add_document` calls, in order. */
  function Replay(cols: Collections, ws: seq<Write>, idOf: string -> string, upsert: bool): Collections
    decreases |ws|
  {
    if ws == [] then cols else Replay(Added(cols, ws[0], idOf, upsert), ws[1..], idOf, upsert)
  }

  lemma {:induction false} ReplayAppend(cols: Collections, a: seq<Write>, b: seq<Write>, idOf: string -> string, upsert: bool)
    ensures Replay(cols, a + b, idOf, upsert) == Replay(Replay(cols, a, idOf, upsert), b, idOf, upsert)
    decreases |a|
  {
    if a == [] {
      assert a + b == b;
    } else {
      assert (a + b)[0] == a[0];
      assert (a + b)[1..] == a[1..] + b;
      var next := Added(cols, a[0], idOf, upsert);
      assert Replay(cols, a + b, idOf, upsert) == Replay(next, a[1..] + b, idOf, upsert);
      ReplayAppend(next, a[1..], b, idOf, upsert);
    }
  }

  /** A write touches at most the one collection its category names, and
      there at most the one id derived from the title. */
  lemma AddedFrame(cols: Collections, w: Write, idOf: string -> string, upsert: bool)
    ensures forall c: Category :: NameOf(c) != w.category ==>
      Lookup(Added(cols, w, idOf, upsert), c) == Lookup(cols, c)
    ensures forall c: Category, id :: Prepare(w, idOf).Ok? && id != Prepare(w, idOf).value.id ==>
      (id in Lookup(Added(cols, w, idOf, upsert), c) <==> id in Lookup(cols, c))
    ensures forall c: Category, id :: Prepare(w, idOf).Ok? && id != Prepare(w, idOf).value.id && id in Lookup(cols, c) ==>
      Lookup(Added(cols, w, idOf, upsert), c)[id] == Lookup(cols, c)[id]
  {
  }

  /** What the store holds after a `news` write that files a record kept
      under its id: the title as content, and the title, description and
      url in the metadata, each `""` when the document lacks it. */
  lemma NewsRecordStored(cols: Collections, d: Dict, today: string, idOf: string -> string, upsert: bool)
    requires "title" in d && d["title"].Str?
    requires upsert || idOf(d["title"].s) !in Lookup(cols, News)
    ensures var after := Lookup(Added(cols, Write("news", DictDoc(d), today), idOf, upsert), News);
      var id := idOf(d["title"].s);
      && id in after
      && after[id].content == d["title"]
      && after[id].metadata["title"] == d["title"]
      && after[id].metadata["description"] == (if "description" in d then d["description"] else Str(""))
      && after[id].metadata["url"] == (if "url" in d then d["url"] else Str(""))
      && after[id].metadata["date_inserted"] == Str(today)
  {
    assert CategoryOf("news") == Some(News);
  }

  /** The `urls` metadata of an insight record built from a list: the list
      joined by ", ", from which the comma-list split recovers clean URLs. */
  lemma InsightUrlsJoined(d: Dict, items: seq<string>, today: string)
    requires "urls" in d && d["urls"] == StrList(items)
    ensures BuildRecord(NewsInsights, d, today).metadata["urls"] == Str(Join(", ", items))
    ensures (forall k :: 0 <= k < |items| ==> items[k] != "" && Stripped(items[k]) && ',' !in items[k]) ==>
      SplitCommaList(BuildRecord(NewsInsights, d, today).metadata["urls"].s) == items
  {
    if forall k :: 0 <= k < |items| ==> items[k] != "" && Stripped(items[k]) && ',' !in items[k] {
      JoinedUrlsRoundTrip(items);
    }
  }

  /** An insight document whose `urls` is a list is stored with the list
      joined by ", ", and clean URLs are read back from that string by the
      comma-list split. */
  lemma InsightUrlListStored(cols: Collections, d: Dict, items: seq<string>, today: string,
                             idOf: string -> string, upsert: bool)
    requires "title" in d && d["title"].Str? && "urls" in d && d["urls"] == StrList(items)
    requires upsert || idOf(d["title"].s) !in Lookup(cols, NewsInsights)
    ensures var after := Lookup(Added(cols, Write("news_insights", DictDoc(d), today), idOf, upsert), NewsInsights);
      var id := idOf(d["title"].s);
      && id in after
      && after[id].content == d["title"]
      && after[id].metadata["urls"] == Str(Join(", ", items))
      && ((forall k :: 0 <= k < |items| ==> items[k] != "" && Stripped(items[k]) && ',' !in items[k]) ==>
            SplitCommaList(after[id].metadata["urls"].s) == items)
  {
    var w := Write("news_insights", DictDoc(d), today);
    assert CategoryOf("news_insights") == Some(NewsInsights);
    var rec := BuildRecord(NewsInsights, d, today);
    assert Prepare(w, idOf) == Ok(Entry(NewsInsights, idOf(d["title"].s), rec));
    assert Lookup(Added(cols, w, idOf, upsert), NewsInsights)[idOf(d["title"].s)] == rec;
    InsightUrlsJoined(d, items, today);
  }

  /** Writes filed under other categories leave a collection as it was. */
  lemma {:induction false} ReplayFrame(cols: Collections, ws: seq<Write>, idOf: string -> string, upsert: bool, c: Category)
    requires forall i :: 0 <= i < |ws| ==> ws[i].category != NameOf(c)
    ensures Lookup(Replay(cols, ws, idOf, upsert), c) == Lookup(cols, c)
    decreases |ws|
  {
    if ws != [] {
      var next := Added(cols, ws[0], idOf, upsert);
      AddedFrame(cols, ws[0], idOf, upsert);
      assert Lookup(next, c) == Lookup(cols, c);
      ReplayFrame(next, ws[1..], idOf, upsert, c);
    }
  }

  /** Writing the same document twice leaves the store as one write does. */
  lemma AddIdempotent(cols: Collections, w: Write, idOf: string -> string, upsert: bool)
    ensures Added(Added(cols, w, idOf, upsert), w, idOf, upsert) == Added(cols, w, idOf, upsert)
  {
    match Prepare(w, idOf)
    case Err(_) =>
    case Ok(e) =>
      var once := Added(cols, w, idOf, upsert);
      assert Lookup(once, e.category) == Put(Lookup(cols, e.category), e.id, e.record, upsert);
      assert e.id in Lookup(once, e.category);
      assert upsert ==> Lookup(once, e.category)[e.id] == e.record;
      assert Put(Lookup(once, e.category), e.id, e.record, upsert) == Lookup(once, e.category);
      assert e.category in once;
      assert once[e.category := Lookup(once, e.category)] == once;
  }

  /** Two documents with the same title written to the same category occupy
      one slot: the second write adds no id, and the record kept is the
      second (replace) or the one already there (keep-first). */
  lemma SameTitleOneRecord(cols: Collections, w1: Write, w2: Write, idOf: string -> string, upsert: bool)
    requires Prepare(w1, idOf).Ok? && Prepare(w2, idOf).Ok?
    requires w1.category == w2.category
    requires w1.document.fields["title"] == w2.document.fields["title"]
    ensures var c := Prepare(w1, idOf).value.category;
      var once := Added(cols, w1, idOf, upsert);
      var twice := Added(once, w2, idOf, upsert);
      && Lookup(twice, c).Keys == Lookup(once, c).Keys
      && Lookup(twice, c)[Prepare(w1, idOf).value.id]
         == (if upsert then Prepare(w2, idOf).value.record else Lookup(once, c)[Prepare(w1, idOf).value.id])
  {
    var e1 := Prepare(w1, idOf).value;
    var e2 := Prepare(w2, idOf).value;
    assert e1.category == e2.category by {
      assert NameOf(e1.category) == NameOf(e2.category);
    }
  }

  /** Every record carries `date_inserted`. */
  ghost predicate AllDated(cols: Collections) {
    forall c: Category, id :: id in Lookup(cols, c) ==> "date_inserted" in Lookup(cols, c)[id].metadata
  }

  /** Writes keep every stored metadata map dated. */
  lemma {:induction false} ReplayKeepsDated(cols: Collections, ws: seq<Write>, idOf: string -> string, upsert: bool)
    requires AllDated(cols)
    ensures AllDated(Replay(cols, ws, idOf, upsert))
    decreases |ws|
  {
    if ws != [] {
      var next := Added(cols, ws[0], idOf, upsert);
      assert AllDated(next) by {
        forall c: Category, id | id in Lookup(next, c)
          ensures "date_inserted" in Lookup(next, c)[id].metadata
        {
          match Prepare(ws[0], idOf)
          case Err(_) =>
          case Ok(e) =>
            if c == e.category && id == e.id && !(id in Lookup(cols, c) && !upsert) {
              assert Lookup(next, c)[id] == e.record;
            } else {
              assert Lookup(next, c)[id] == Lookup(cols, c)[id];
            }
        }
      }
      ReplayKeepsDated(next, ws[1..], idOf, upsert);
    }
  }

  /** One row of a query result. */
  datatype Hit = Hit(id: string, record: Record)

  ghost predicate DistinctIds(hits: seq<Hit>) {
    forall i, j :: 0 <= i < j < |hits| ==> hits[i].id != hits[j].id
  }

  /** What `query(query_texts=["*"])` may return from `coll`: as many
      records as the collection holds, up to `limit`, each a distinct
      stored record. */
  ghost predicate QueryResult(hits: seq<Hit>, coll: Collection, limit: nat) {
    && |hits| == (if limit < |coll.Keys| then limit else |coll.Keys|)
    && DistinctIds(hits)
    && forall h :: h in hits ==> h.id in coll && coll[h.id] == h.record
  }

  /** The module-level `collections` dict and the two functions that use it. */
  class DocumentStore {
    var collections: Collections
    /** Every `add_document` call, in order. */
    ghost var log: seq<Write>
    /** The title digest (MD5 hex digest in the source). */
    const idOf: string -> string
    /** Whether `collection.add` replaces a record whose id already exists. */
    const upsert: bool
    /** How many nearest records a `query` returns. */
    const queryLimit: nat
    /** The collections when the process started. */
    ghost const initial: Collections

    /** The collections are the initial ones with every logged write
        replayed on them, in order. */
    ghost predicate Valid()
      reads this
    {
      collections == Replay(initial, log, idOf, upsert)
    }

    /** The collections as the server holds them when the process starts,
        possibly with records of earlier runs. */
    constructor (existing: Collections, idOf: string -> string, upsert: bool, queryLimit: nat)
      ensures collections == existing && log == [] && initial == existing
      ensures this.idOf == idOf && this.upsert == upsert && this.queryLimit == queryLimit
      ensures Valid()
    {
      initial := existing;
      collections := existing;
      log := [];
      this.idOf := idOf;
      this.upsert := upsert;
      this.queryLimit := queryLimit;
    }

    ghost predicate Dated()
      reads this
    {
      AllDated(collections)
    }

    /** `add_document(category, document)`: never raises; a document it
        cannot file leaves every collection as it was. */
    method AddDocument(category: string, document: Document, today: string)
      requires Valid()
      modifies this
      ensures Valid()
      ensures log == old(log) + [Write(category, document, today)]
      ensures collections == Added(old(collections), Write(category, document, today), idOf, upsert)
      ensures old(Dated()) ==> Dated()
    {
      ghost var wasDated := Dated();
      var w := Write(category, document, today);
      var prepared := Prepare(w, idOf);
      if prepared.Ok? {
        var e := prepared.value;
        collections := collections[e.category := Put(Lookup(collections, e.category), e.id, e.record, upsert)];
      }
      log := log + [w];
      ReplayAppend(initial, old(log), [w], idOf, upsert);
      assert Replay(old(collections), [w], idOf, upsert) == collections;
      if wasDated {
        ReplayKeepsDated(old(collections), [w], idOf, upsert);
      }
    }

    /** `get_documents(category)`: ValueError for a name outside the three
        categories; otherwise `min(queryLimit, size)` distinct records of
        the collection, in an order the model leaves open. */
    method GetDocuments(category: string) returns (r: Result<seq<Hit>>)
      ensures CategoryOf(category).None? <==> r.Err?
      ensures r.Err? ==> r.error == ValueError("Unknown category: " + category)
      ensures r.Ok? ==> QueryResult(r.value, Lookup(collections, CategoryOf(category).value), queryLimit)
    {
      var cat := CategoryOf(category);
      if cat.None? {
        return Err(ValueError("Unknown category: " + category));
      }
      var coll := Lookup(collections, cat.value);
      var remaining := coll.Keys;
      var hits: seq<Hit> := [];
      while |hits| < queryLimit && remaining != {}
        invariant remaining <= coll.Keys
        invariant |hits| <= queryLimit
        invariant |hits| + |remaining| == |coll.Keys|
        invariant DistinctIds(hits)
        invariant forall i :: 0 <= i < |hits| ==>
          hits[i].id in coll && hits[i].id !in remaining && coll[hits[i].id] == hits[i].record
        decreases remaining
      {
        var id :| id in remaining;
        hits := hits + [Hit(id, coll[id])];
        remaining := remaining - {id};
      }
      r := Ok(hits);
    }
  }
}
