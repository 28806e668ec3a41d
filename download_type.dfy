/**
 * The GraphQL view of the download queue: the public enumerations, the records
 * built from the downloader's own records, and the two resolvers of a download,
 * `manga` and `chapter`, as the ordered effects they perform.
 */
module DownloadTypes {
  import opened Kotlin
  import M = DownloadModel

  datatype DownloadState = QUEUED | DOWNLOADING | FINISHED | ERROR

  datatype DownloaderState = STARTED | STOPPED

  datatype DownloadType = DownloadType(
    chapterId: Int32,
    mangaId: Int32,
    state: DownloadState,
    progress: Float,
    tries: Int32,
    position: Int32)

  datatype DownloadUpdate = DownloadUpdate(updateType: M.DownloadUpdateType, download: DownloadType)

  datatype DownloadStatus = DownloadStatus(state: DownloaderState, queue: seq<DownloadType>)

  datatype DownloadUpdates = DownloadUpdates(
    state: DownloaderState,
    updates: seq<DownloadUpdate>,
    initial: Option<seq<DownloadType>>,
    omittedUpdates: bool)

  // ---------------------------------------------------------------------
  // Enumeration translations

  /** The downloader's run state in public terms. */
  function ToDownloaderState(s: M.Status): (r: DownloaderState)
    ensures r == STOPPED <==> s == M.Stopped
    ensures r == STARTED <==> s == M.Started
  {
    match s
    case Stopped => STOPPED
    case Started => STARTED
  }

  /** The run state a public run state stands for. */
  function StatusOf(r: DownloaderState): (s: M.Status)
    ensures ToDownloaderState(s) == r
  {
    match r
    case STOPPED => M.Stopped
    case STARTED => M.Started
  }

  /** A download's lifecycle state in public terms. */
  function ToDownloadState(s: M.DownloadState): (r: DownloadState)
    ensures r == QUEUED <==> s == M.Queued
    ensures r == DOWNLOADING <==> s == M.Downloading
    ensures r == FINISHED <==> s == M.Finished
    ensures r == ERROR <==> s == M.Error
  {
    match s
    case Queued => QUEUED
    case Downloading => DOWNLOADING
    case Finished => FINISHED
    case Error => ERROR
  }

  /** The lifecycle state a public state stands for. */
  function InternalStateOf(r: DownloadState): (s: M.DownloadState)
    ensures ToDownloadState(s) == r
  {
    match r
    case QUEUED => M.Queued
    case DOWNLOADING => M.Downloading
    case FINISHED => M.Finished
    case ERROR => M.Error
  }

  /** Both translations are bijections: no variant is merged with another or dropped. */
  lemma TranslationsAreBijections()
    ensures forall s :: StatusOf(ToDownloaderState(s)) == s
    ensures forall a, b :: ToDownloaderState(a) == ToDownloaderState(b) ==> a == b
    ensures forall s :: InternalStateOf(ToDownloadState(s)) == s
    ensures forall a, b :: ToDownloadState(a) == ToDownloadState(b) ==> a == b
  {
  }

  // ---------------------------------------------------------------------
  // Secondary constructors

  /** `DownloadType(downloadChapter)`: every field copied, the state translated. */
  function FromDownloadChapter(c: M.DownloadChapter): (t: DownloadType)
    ensures t.chapterId == c.chapter.id && t.mangaId == c.mangaId
    ensures t.state == ToDownloadState(c.state)
    ensures t.progress == c.progress && t.tries == c.tries && t.position == c.position
  {
    DownloadType(c.chapter.id, c.mangaId, ToDownloadState(c.state), c.progress, c.tries, c.position)
  }

  /** No two downloads share a public view: the constructor loses nothing. */
  lemma FromDownloadChapterInjective(a: M.DownloadChapter, b: M.DownloadChapter)
    ensures FromDownloadChapter(a) == FromDownloadChapter(b) ==> a == b
  {
  }

  /** `queue.map { DownloadType(it) }`. */
  function MapDownloads(cs: seq<M.DownloadChapter>): (ts: seq<DownloadType>)
    ensures |ts| == |cs|
    ensures forall i :: 0 <= i < |cs| ==> ts[i] == FromDownloadChapter(cs[i])
  {
    if cs == [] then [] else [FromDownloadChapter(cs[0])] + MapDownloads(cs[1..])
  }

  /** `DownloadUpdate(downloadUpdate)`: the update type copied, the download converted. */
  function FromDownloadUpdate(u: M.DownloadUpdate): (r: DownloadUpdate)
    ensures r.updateType == u.updateType
    ensures r.download == FromDownloadChapter(u.downloadChapter)
  {
    DownloadUpdate(u.updateType, FromDownloadChapter(u.downloadChapter))
  }

  /** `updates.map { DownloadUpdate(it) }`. */
  function MapUpdates(us: seq<M.DownloadUpdate>): (rs: seq<DownloadUpdate>)
    ensures |rs| == |us|
    ensures forall i :: 0 <= i < |us| ==> rs[i] == FromDownloadUpdate(us[i])
  {
    if us == [] then [] else [FromDownloadUpdate(us[0])] + MapUpdates(us[1..])
  }

  /** `DownloadStatus(downloadStatus)`. */
  function FromDownloadStatus(s: M.DownloadStatus): (r: DownloadStatus)
    ensures r.state == ToDownloaderState(s.status)
    ensures |r.queue| == |s.queue|
    ensures forall i :: 0 <= i < |s.queue| ==> r.queue[i] == FromDownloadChapter(s.queue[i])
  {
    DownloadStatus(ToDownloaderState(s.status), MapDownloads(s.queue))
  }

  /** `DownloadUpdates(downloadUpdates, omittedUpdates)`. */
  function FromDownloadUpdates(u: M.DownloadUpdates, omittedUpdates: bool): (r: DownloadUpdates)
    ensures r.state == ToDownloaderState(u.status)
    ensures |r.updates| == |u.updates|
    ensures forall i :: 0 <= i < |u.updates| ==> r.updates[i] == FromDownloadUpdate(u.updates[i])
    ensures r.initial.None? <==> u.initial.None?
    ensures u.initial.Some? ==> |r.initial.value| == |u.initial.value|
    ensures u.initial.Some? ==>
      forall i :: 0 <= i < |u.initial.value| ==> r.initial.value[i] == FromDownloadChapter(u.initial.value[i])
    ensures r.omittedUpdates == omittedUpdates
  {
    var initial := match u.initial
      case None => None
      case Some(q) => Some(MapDownloads(q));
    DownloadUpdates(ToDownloaderState(u.status), MapUpdates(u.updates), initial, omittedUpdates)
  }

  /** A status snapshot and an update message report the downloader's run state the same way. */
  lemma RunStateAgrees(s: M.DownloadStatus, u: M.DownloadUpdates, omittedUpdates: bool)
    requires s.status == u.status
    ensures FromDownloadStatus(s).state == FromDownloadUpdates(u, omittedUpdates).state
  {
  }

  // ---------------------------------------------------------------------
  // Resolvers

  /** The data loaders a resolver can ask. */
  datatype DataLoader = MangaDataLoader | ChapterDataLoader

  /** What a resolver does, in order: clear a cached entry, or request a key from a loader. */
  datatype Effect =
    | ClearMangaCache(mangaId: Int32)
    | ClearChapterCache(chapterId: Int32, mangaId: Int32)
    | Load(loader: DataLoader, key: Int32)

  /** Resolver `manga`: clears the manga's cache entry when the download is finished, then asks the manga loader. */
  function Manga(t: DownloadType): (effects: seq<Effect>)
    ensures 0 < |effects| <= 2
    ensures effects[|effects| - 1] == Load(MangaDataLoader, t.mangaId)
    ensures ClearMangaCache(t.mangaId) in effects <==> t.state == FINISHED
    ensures forall i :: 0 <= i < |effects| - 1 ==> effects[i] == ClearMangaCache(t.mangaId)
  {
    var clearCache := t.state == FINISHED;
    (if clearCache then [ClearMangaCache(t.mangaId)] else []) + [Load(MangaDataLoader, t.mangaId)]
  }

  /** Resolver `chapter`: clears the chapter's cache entry when the download is finished, then asks the chapter loader. */
  function Chapter(t: DownloadType): (effects: seq<Effect>)
    ensures 0 < |effects| <= 2
    ensures effects[|effects| - 1] == Load(ChapterDataLoader, t.chapterId)
    ensures ClearChapterCache(t.chapterId, t.mangaId) in effects <==> t.state == FINISHED
    ensures forall i :: 0 <= i < |effects| - 1 ==> effects[i] == ClearChapterCache(t.chapterId, t.mangaId)
  {
    var clearCache := t.state == FINISHED;
    (if clearCache then [ClearChapterCache(t.chapterId, t.mangaId)] else []) + [Load(ChapterDataLoader, t.chapterId)]
  }
}
