/**
 * What the resolvers' effects do to the data loaders' per-key caches. A data
 * loader answers a request for a key it has cached from that cached entry; a
 * cleared key is fetched afresh. This is the meaning against which the
 * clear-before-load order of the resolvers is stated.
 */
module LoaderCache {
  import opened Kotlin
  import opened DownloadTypes

  /** The keys for which each loader holds a cached answer. */
  datatype Cache = Cache(manga: set<Int32>, chapters: set<Int32>)

  function Cached(c: Cache, loader: DataLoader): set<Int32> {
    match loader
    case MangaDataLoader => c.manga
    case ChapterDataLoader => c.chapters
  }

  /** One effect: a clear evicts the key, a request leaves the answer cached. */
  function Step(c: Cache, e: Effect): (d: Cache)
    ensures e.ClearMangaCache? ==> d == c.(manga := c.manga - {e.mangaId})
    ensures e.ClearChapterCache? ==> d == c.(chapters := c.chapters - {e.chapterId})
    ensures e.Load? ==> Cached(d, e.loader) == Cached(c, e.loader) + {e.key}
    ensures e.Load? && e.loader == MangaDataLoader ==> d.chapters == c.chapters
    ensures e.Load? && e.loader == ChapterDataLoader ==> d.manga == c.manga
  {
    match e
    case ClearMangaCache(m) => c.(manga := c.manga - {m})
    case ClearChapterCache(ch, _) => c.(chapters := c.chapters - {ch})
    case Load(MangaDataLoader, k) => c.(manga := c.manga + {k})
    case Load(ChapterDataLoader, k) => c.(chapters := c.chapters + {k})
  }

  function Run(c: Cache, effects: seq<Effect>): Cache
    decreases |effects|
  {
    if effects == [] then c else Run(Step(c, effects[0]), effects[1..])
  }

  /** The requests among `effects` that are answered from a cached entry, in order. */
  function CachedAnswers(c: Cache, effects: seq<Effect>): seq<Effect>
    decreases |effects|
  {
    if effects == [] then []
    else
      var e := effects[0];
      (if e.Load? && e.key in Cached(c, e.loader) then [e] else []) + CachedAnswers(Step(c, e), effects[1..])
  }

  lemma {:induction false} CachedAnswersAppend(c: Cache, a: seq<Effect>, b: seq<Effect>)
    ensures CachedAnswers(c, a + b) == CachedAnswers(c, a) + CachedAnswers(Run(c, a), b)
    ensures Run(c, a + b) == Run(Run(c, a), b)
    decreases |a|
  {
    if a != [] {
      assert (a + b)[0] == a[0];
      assert (a + b)[1..] == a[1..] + b;
      CachedAnswersAppend(Step(c, a[0]), a[1..], b);
    } else {
      assert a + b == b;
    }
  }

  /** Clearing a key twice in succession is the same as clearing it once. */
  lemma ClearIsIdempotent(c: Cache, e: Effect)
    requires e.ClearMangaCache? || e.ClearChapterCache?
    ensures Step(Step(c, e), e) == Step(c, e)
  {
  }

  /**
   * The manga request is answered from the cache exactly when the download is
   * not finished and the manga is cached; afterwards the manga is cached and the
   * chapter cache is untouched.
   */
  lemma MangaAnswer(t: DownloadType, c: Cache)
    ensures CachedAnswers(c, Manga(t)) ==
      if t.state != FINISHED && t.mangaId in c.manga then [Load(MangaDataLoader, t.mangaId)] else []
    ensures Run(c, Manga(t)) == c.(manga := c.manga + {t.mangaId})
  {
    var clear := ClearMangaCache(t.mangaId);
    var load := Load(MangaDataLoader, t.mangaId);
    if t.state == FINISHED {
      assert Manga(t) == [clear] + [load];
      CachedAnswersAppend(c, [clear], [load]);
    } else {
      assert Manga(t) == [load];
    }
  }

  /**
   * The chapter request is answered from the cache exactly when the download is
   * not finished and the chapter is cached; afterwards the chapter is cached and
   * the manga cache is untouched.
   */
  lemma ChapterAnswer(t: DownloadType, c: Cache)
    ensures CachedAnswers(c, Chapter(t)) ==
      if t.state != FINISHED && t.chapterId in c.chapters then [Load(ChapterDataLoader, t.chapterId)] else []
    ensures Run(c, Chapter(t)) == c.(chapters := c.chapters + {t.chapterId})
  {
    var clear := ClearChapterCache(t.chapterId, t.mangaId);
    var load := Load(ChapterDataLoader, t.chapterId);
    if t.state == FINISHED {
      assert Chapter(t) == [clear] + [load];
      CachedAnswersAppend(c, [clear], [load]);
    } else {
      assert Chapter(t) == [load];
    }
  }

  /**
   * The clear fires on every resolution, not only the first: resolving a
   * finished download twice answers both requests afresh.
   */
  lemma FinishedResolvesFreshEveryTime(t: DownloadType, c: Cache)
    requires t.state == FINISHED
    ensures CachedAnswers(c, Manga(t) + Manga(t)) == []
    ensures CachedAnswers(c, Chapter(t) + Chapter(t)) == []
  {
    CachedAnswersAppend(c, Manga(t), Manga(t));
    MangaAnswer(t, c);
    MangaAnswer(t, Run(c, Manga(t)));
    CachedAnswersAppend(c, Chapter(t), Chapter(t));
    ChapterAnswer(t, c);
    ChapterAnswer(t, Run(c, Chapter(t)));
  }

  /** Were the request made before the clear, a finished download whose manga is cached would be answered stale. */
  lemma RequestBeforeClearIsStale(t: DownloadType, c: Cache)
    requires t.state == FINISHED && t.mangaId in c.manga
    ensures CachedAnswers(c, [Load(MangaDataLoader, t.mangaId), ClearMangaCache(t.mangaId)]) != []
  {
  }
}
