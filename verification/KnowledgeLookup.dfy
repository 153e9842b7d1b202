/** The methodology index and its lookup cache (WorkAI/knowledge_base/lookup.py, indexer.py, queries.py). */
module KnowledgeLookup {
  import opened Common
  import opened Text
  import opened Upserts
  import opened Chunking

  datatype Article = Article(title: string, body: string, tags: seq<string>)

  datatype Document = Document(source: string, article: Article)

  /** knowledge_base_articles by source path, knowledge_base_chunks by source path and number. */
  datatype Store = Store(articles: map<string, Article>, chunks: map<(string, int), string>)

  datatype Hit = Hit(source: string, title: string, body: string, tags: seq<string>, rank: real)

  datatype SearchResult = SearchResult(source: string, title: string, excerpt: string, tags: seq<string>, rank: real)

  /** All hits of LOOKUP_METHODOLOGY_SQL without its LIMIT, in its total order. */
  type Search = (Store, string) -> seq<Hit>

  // ---- Lookups ---------------------------------------------------------------------------------

  function ResultOf(hit: Hit): SearchResult {
    var text := Strip(hit.body);
    SearchResult(hit.source, hit.title, if |text| <= 240 then text else text[..240], hit.tags, hit.rank)
  }

  function Results(hits: seq<Hit>): (r: seq<SearchResult>)
    ensures |r| == |hits| && forall i :: 0 <= i < |r| ==> r[i] == ResultOf(hits[i])
  {
    seq(|hits|, i requires 0 <= i < |hits| => ResultOf(hits[i]))
  }

  /** `lookup_articles`: what the database answers now. */
  function Query(search: Search, store: Store, query: string, limit: nat): seq<SearchResult> {
    var hits := search(store, query);
    Results(if |hits| <= limit then hits else hits[..limit])
  }

  function Clamp(limit: int): nat {
    if limit < 1 then 1 else if limit > 100 then 100 else limit
  }

  /** A lookup without the cache. */
  function Plain(search: Search, store: Store, query: string, limit: int): seq<SearchResult> {
    if Strip(query) == "" then [] else Query(search, store, Strip(query), Clamp(limit))
  }

  // ---- The cache ---------------------------------------------------------------------------------

  type Key = (string, nat)

  const CACHE_SIZE: nat := 100

  /** Entries from the least to the most recently used. */
  type Cache = seq<(Key, seq<SearchResult>)>

  function Cached(cache: Cache, key: Key): Option<seq<SearchResult>> {
    if cache == [] then None
    else if cache[|cache| - 1].0 == key then Some(cache[|cache| - 1].1)
    else Cached(cache[..|cache| - 1], key)
  }

  function Forget(cache: Cache, key: Key): Cache {
    if cache == [] then []
    else if cache[|cache| - 1].0 == key then Forget(cache[..|cache| - 1], key)
    else Forget(cache[..|cache| - 1], key) + [cache[|cache| - 1]]
  }

  /** The cache after a use of `key`: it moves to the end, and the oldest entry goes if the cache overflows. */
  function Use(cache: Cache, key: Key, value: seq<SearchResult>): Cache {
    var all := Forget(cache, key) + [(key, value)];
    if |all| > CACHE_SIZE then all[|all| - CACHE_SIZE..] else all
  }

  /** Every cached answer is what the database would answer now. */
  ghost predicate Current(search: Search, store: Store, cache: Cache) {
    forall i :: 0 <= i < |cache| ==> cache[i].1 == Query(search, store, cache[i].0.0, cache[i].0.1)
  }

  lemma {:induction false} FoundIsCurrent(search: Search, store: Store, cache: Cache, key: Key)
    requires Current(search, store, cache) && Cached(cache, key).Some?
    ensures Cached(cache, key).value == Query(search, store, key.0, key.1)
  {
    if cache[|cache| - 1].0 != key {
      FoundIsCurrent(search, store, cache[..|cache| - 1], key);
    }
  }

  lemma {:induction false} ForgetStaysCurrent(search: Search, store: Store, cache: Cache, key: Key)
    requires Current(search, store, cache)
    ensures Current(search, store, Forget(cache, key))
  {
    if cache != [] {
      ForgetStaysCurrent(search, store, cache[..|cache| - 1], key);
    }
  }

  lemma UseStaysCurrent(search: Search, store: Store, cache: Cache, key: Key, value: seq<SearchResult>)
    requires Current(search, store, cache) && value == Query(search, store, key.0, key.1)
    ensures Current(search, store, Use(cache, key, value)) && |Use(cache, key, value)| <= CACHE_SIZE
  {
    ForgetStaysCurrent(search, store, cache, key);
    var all := Forget(cache, key) + [(key, value)];
    assert forall i :: 0 <= i < |all| - 1 ==> all[i] == Forget(cache, key)[i];
    assert Current(search, store, all);
  }

  /** One lookup through the cache: the answer, and the cache afterwards. */
  function Lookup(search: Search, store: Store, cache: Cache, query: string, limit: int): (seq<SearchResult>, Cache) {
    if Strip(query) == "" then ([], cache)
    else
      var key := (Strip(query), Clamp(limit));
      var found := Cached(cache, key);
      var value := if found.Some? then found.value else Query(search, store, key.0, key.1);
      (value, Use(cache, key, value))
  }

  lemma LookupIsPlain(search: Search, store: Store, cache: Cache, query: string, limit: int)
    requires Current(search, store, cache)
    ensures Lookup(search, store, cache, query, limit).0 == Plain(search, store, query, limit)
    ensures Current(search, store, Lookup(search, store, cache, query, limit).1)
  {
    if Strip(query) != "" {
      var key := (Strip(query), Clamp(limit));
      if Cached(cache, key).Some? {
        FoundIsCurrent(search, store, cache, key);
      }
      UseStaysCurrent(search, store, cache, key, Query(search, store, key.0, key.1));
    }
  }

  // ---- Indexing ------------------------------------------------------------------------------------

  /** `chunk_text` with its default sizes. */
  function ChunkTexts(body: string): seq<string> {
    if Normalize(body) == "" then [] else ChunksOf(Normalize(body), 3000, 300)
  }

  /** The documents among the files; a file that does not parse is skipped. */
  function Documents(files: seq<Result<Document>>): (docs: seq<Document>)
    ensures |docs| <= |files|
  {
    if files == [] then []
    else Documents(files[..|files| - 1]) + if files[|files| - 1].Ok? then [files[|files| - 1].value] else []
  }

  function ArticleRows(docs: seq<Document>): seq<(string, Article)> {
    seq(|docs|, i requires 0 <= i < |docs| => (docs[i].source, docs[i].article))
  }

  function Numbered(source: string, texts: seq<string>): seq<((string, int), string)> {
    seq(|texts|, i requires 0 <= i < |texts| => ((source, i + 1), texts[i]))
  }

  /** DELETE_CHUNKS_BY_SOURCES_SQL */
  function WithoutSource(chunks: map<(string, int), string>, source: string): map<(string, int), string> {
    map k | k in chunks && k.0 != source :: chunks[k]
  }

  function Replaced(chunks: map<(string, int), string>, source: string, texts: seq<string>): map<(string, int), string> {
    Upsert(WithoutSource(chunks, source), Numbered(source, texts))
  }

  function ReplacedAll(chunks: map<(string, int), string>, docs: seq<Document>): map<(string, int), string> {
    if docs == [] then chunks
    else
      var last := docs[|docs| - 1];
      Replaced(ReplacedAll(chunks, docs[..|docs| - 1]), last.source, ChunkTexts(last.article.body))
  }

  /** What a committed index run leaves. */
  function Indexed(store: Store, docs: seq<Document>): Store {
    Store(Upsert(store.articles, ArticleRows(docs)), ReplacedAll(store.chunks, docs))
  }

  /** The chunks of `source` are exactly `texts`, numbered from 1. */
  ghost predicate HasChunks(chunks: map<(string, int), string>, source: string, texts: seq<string>) {
    forall n: int :: ((source, n) in chunks <==> 1 <= n <= |texts|)
                  && ((source, n) in chunks ==> chunks[(source, n)] == texts[n - 1])
  }

  ghost predicate SameChunks(chunks: map<(string, int), string>, chunks': map<(string, int), string>, source: string) {
    forall n: int :: ((source, n) in chunks <==> (source, n) in chunks')
                  && ((source, n) in chunks ==> chunks[(source, n)] == chunks'[(source, n)])
  }

  lemma ReplacedHasChunks(chunks: map<(string, int), string>, source: string, texts: seq<string>)
    ensures HasChunks(Replaced(chunks, source, texts), source, texts)
  {
    var rows := Numbered(source, texts);
    UpsertAdds(WithoutSource(chunks, source), rows);
    forall n: int
      ensures HasKey(rows, (source, n)) <==> 1 <= n <= |texts|
      ensures 1 <= n <= |texts| ==>
                (source, n) in Replaced(chunks, source, texts) && Replaced(chunks, source, texts)[(source, n)] == texts[n - 1]
    {
      if 1 <= n <= |texts| {
        assert rows[n - 1].0 == (source, n);
        UpsertHolds(WithoutSource(chunks, source), rows, n - 1);
      }
    }
  }

  lemma ReplacedKeepsOthers(chunks: map<(string, int), string>, source: string, texts: seq<string>, other: string)
    requires other != source
    ensures SameChunks(Replaced(chunks, source, texts), chunks, other)
  {
    var rows := Numbered(source, texts);
    UpsertAdds(WithoutSource(chunks, source), rows);
    assert forall n: int :: !HasKey(rows, (other, n));
  }

  function LastDocument(docs: seq<Document>, source: string): Option<Document> {
    if docs == [] then None
    else if docs[|docs| - 1].source == source then Some(docs[|docs| - 1])
    else LastDocument(docs[..|docs| - 1], source)
  }

  /**
   * An indexed source holds the chunks of its document, numbered from 1, and nothing else;
   * a source that was not among the files keeps its chunks.
   */
  lemma {:induction false} ChunksAreExact(chunks: map<(string, int), string>, docs: seq<Document>, source: string)
    ensures var last := LastDocument(docs, source);
            if last.Some? then HasChunks(ReplacedAll(chunks, docs), source, ChunkTexts(last.value.article.body))
            else SameChunks(ReplacedAll(chunks, docs), chunks, source)
  {
    if docs != [] {
      var front, last := docs[..|docs| - 1], docs[|docs| - 1];
      ChunksAreExact(chunks, front, source);
      ReplacedHasChunks(ReplacedAll(chunks, front), last.source, ChunkTexts(last.article.body));
      if last.source != source {
        ReplacedKeepsOthers(ReplacedAll(chunks, front), last.source, ChunkTexts(last.article.body), source);
      }
    }
  }

  /** Likewise for the article itself. */
  lemma {:induction false} ArticlesAreExact(articles: map<string, Article>, docs: seq<Document>, source: string)
    ensures var last, after := LastDocument(docs, source), Upsert(articles, ArticleRows(docs));
            if last.Some? then source in after && after[source] == last.value.article
            else (source in after <==> source in articles) && (source in after ==> after[source] == articles[source])
  {
    if docs != [] {
      ArticlesAreExact(articles, docs[..|docs| - 1], source);
      assert ArticleRows(docs)[..|docs| - 1] == ArticleRows(docs[..|docs| - 1]);
    }
  }

  /** Every word of an indexed document that is shorter than a chunk stands whole in one of its stored chunks. */
  lemma IndexedWordsAreStored(store: Store, docs: seq<Document>, source: string, w: string)
    requires LastDocument(docs, source).Some? && |w| < 3000
    requires HasWord(LastDocument(docs, source).value.article.body, w)
    ensures exists n: int :: (source, n) in Indexed(store, docs).chunks && HasWord(Indexed(store, docs).chunks[(source, n)], w)
  {
    var body := LastDocument(docs, source).value.article.body;
    ChunksAreExact(store.chunks, docs, source);
    ShortWordsSurvive(body, 3000, 300, w);
    var texts := ChunkTexts(body);
    var i :| 0 <= i < |texts| && HasWord(texts[i], w);
    assert (source, i + 1) in Indexed(store, docs).chunks;
  }

  // ---- The process ------------------------------------------------------------------------------------

  datatype IndexResult = IndexResult(files: nat, rows: nat, chunks: nat, errors: nat)

  /** The loop over the source files. */
  method ParseFiles(files: seq<Result<Document>>) returns (docs: seq<Document>, errors: nat)
    ensures docs == Documents(files) && |docs| + errors == |files|
  {
    docs, errors := [], 0;
    for i := 0 to |files|
      invariant docs == Documents(files[..i]) && |docs| + errors == i
    {
      assert files[..i + 1][..i] == files[..i];
      if files[i].Ok? {
        docs := docs + [files[i].value];
      } else {
        errors := errors + 1;
      }
    }
    assert files[..|files|] == files;
  }

  function CountChunks(docs: seq<Document>): nat {
    if docs == [] then 0 else CountChunks(docs[..|docs| - 1]) + |ChunkTexts(docs[|docs| - 1].article.body)|
  }

  lemma ReplacedStep(chunks: map<(string, int), string>, docs: seq<Document>, i: nat)
    requires i < |docs|
    ensures ReplacedAll(chunks, docs[..i + 1])
         == Replaced(ReplacedAll(chunks, docs[..i]), docs[i].source, ChunkTexts(docs[i].article.body))
    ensures CountChunks(docs[..i + 1]) == CountChunks(docs[..i]) + |ChunkTexts(docs[i].article.body)|
  {
    assert docs[..i + 1][..i] == docs[..i];
  }

  class KnowledgeBase {
    const search: Search
    var store: Store
    var cache: Cache

    ghost predicate Valid()
      reads this
    {
      Current(search, store, cache)
    }

    constructor (search: Search, store: Store)
      ensures Valid() && this.search == search && this.store == store && cache == []
    {
      this.search, this.store, cache := search, store, [];
    }

    /** `_lookup_cached` under `lru_cache(maxsize=100)`. */
    method LookupCached(query: string, limit: nat) returns (r: seq<SearchResult>)
      requires Valid()
      modifies this`cache
      ensures Valid() && r == Query(search, store, query, limit)
      ensures cache == Use(old(cache), (query, limit), r)
    {
      var found := Cached(cache, (query, limit));
      if found.Some? {
        FoundIsCurrent(search, store, cache, (query, limit));
        r := found.value;
      } else {
        r := Query(search, store, query, limit);
      }
      UseStaysCurrent(search, store, cache, (query, limit), r);
      cache := Use(cache, (query, limit), r);
    }

    /** `lookup_methodology`: the answer is that of an uncached query on the current tables. */
    method LookupMethodology(query: string, limit: int) returns (r: seq<SearchResult>)
      requires Valid()
      modifies this`cache
      ensures Valid() && r == Plain(search, store, query, limit)
      ensures (r, cache) == Lookup(search, store, old(cache), query, limit)
    {
      LookupIsPlain(search, store, cache, query, limit);
      var cleaned := Strip(query);
      if cleaned == "" { return []; }
      r := LookupCached(cleaned, Clamp(limit));
    }

    /** `clear_lookup_cache` */
    method ClearLookupCache()
      modifies this`cache
      ensures cache == [] && Valid()
    {
      cache := [];
    }

    /** `replace_article_chunks` */
    method ReplaceArticleChunks(source: string, texts: seq<string>) returns (n: nat)
      modifies this`store
      ensures store == old(store).(chunks := Replaced(old(store).chunks, source, texts)) && n == |texts|
    {
      var chunks := WithoutSource(store.chunks, source);
      chunks := UpsertBatch(chunks, Numbered(source, texts));
      store := store.(chunks := chunks);
      n := |texts|;
    }

    /** The loop that replaces the chunks of every parsed document. */
    method ReplaceAllChunks(docs: seq<Document>) returns (written: nat)
      modifies this`store
      ensures store == old(store).(chunks := ReplacedAll(old(store).chunks, docs)) && written == CountChunks(docs)
    {
      written := 0;
      for i := 0 to |docs|
        invariant store == old(store).(chunks := ReplacedAll(old(store).chunks, docs[..i]))
        invariant written == CountChunks(docs[..i])
      {
        ReplacedStep(old(store).chunks, docs, i);
        var chunks := ChunkText(docs[i].article.body, 3000, 300);
        var n := ReplaceArticleChunks(docs[i].source, chunks.value);
        written := written + n;
      }
      assert docs[..|docs|] == docs;
    }

    /**
     * `index_knowledge_sources`. `commits` says whether the transaction goes through; if not, the tables and the
     * cache stay as they were.
     */
    method IndexKnowledgeSources(files: seq<Result<Document>>, commits: bool) returns (r: Result<IndexResult>)
      requires Valid()
      modifies this`store, this`cache
      ensures Valid()
      ensures store == if commits then Indexed(old(store), Documents(files)) else old(store)
      ensures cache == if commits then [] else old(cache)
      ensures r.Ok? <==> commits
      ensures r.Ok? ==> r.value == IndexResult(|files|, |Documents(files)|, CountChunks(Documents(files)),
                                               |files| - |Documents(files)|)
    {
      var docs, errors := ParseFiles(files);
      var saved := store;
      var articles := UpsertBatch(store.articles, ArticleRows(docs));
      store := store.(articles := articles);
      var written := ReplaceAllChunks(docs);
      if !commits {
        store := saved;
        return Err("the transaction failed");
      }
      ClearLookupCache();
      return Ok(IndexResult(|files|, |docs|, written, errors));
    }
  }

  // ---- Any sequence of lookups and index runs -----------------------------------------------------------

  datatype Op = LookupOp(query: string, limit: int) | IndexOp(files: seq<Result<Document>>, commits: bool)

  datatype Process = Process(store: Store, cache: Cache)

  function StepStore(store: Store, op: Op): Store {
    if op.IndexOp? && op.commits then Indexed(store, Documents(op.files)) else store
  }

  function Step(search: Search, p: Process, op: Op): Process {
    match op {
      case LookupOp(query, limit) => p.(cache := Lookup(search, p.store, p.cache, query, limit).1)
      case IndexOp(files, commits) => Process(StepStore(p.store, op), if commits then [] else p.cache)
    }
  }

  function After(search: Search, p: Process, ops: seq<Op>): Process {
    if ops == [] then p else Step(search, After(search, p, ops[..|ops| - 1]), ops[|ops| - 1])
  }

  function StoreAfter(store: Store, ops: seq<Op>): Store {
    if ops == [] then store else StepStore(StoreAfter(store, ops[..|ops| - 1]), ops[|ops| - 1])
  }

  /** The cache is never visible: after any history a lookup answers as the database does without a cache. */
  lemma {:induction false} CacheIsInvisible(search: Search, store: Store, ops: seq<Op>, query: string, limit: int)
    ensures var p := After(search, Process(store, []), ops);
            && p.store == StoreAfter(store, ops) && Current(search, p.store, p.cache)
            && Lookup(search, p.store, p.cache, query, limit).0 == Plain(search, StoreAfter(store, ops), query, limit)
    decreases |ops|
  {
    var p := After(search, Process(store, []), ops);
    if ops != [] {
      var last := ops[|ops| - 1];
      CacheIsInvisible(search, store, ops[..|ops| - 1], query, limit);
      var before := After(search, Process(store, []), ops[..|ops| - 1]);
      if last.LookupOp? {
        LookupIsPlain(search, before.store, before.cache, last.query, last.limit);
      }
    }
    LookupIsPlain(search, p.store, p.cache, query, limit);
  }
}
