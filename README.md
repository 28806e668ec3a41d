# Download queue GraphQL view — Dafny model

This project models the GraphQL view layer of Tachidesk's download queue
(`DownloadType.kt`). The layer does three things:

- It translates the downloader's records into public GraphQL records. The run
  state `Stopped/Started` becomes `STOPPED/STARTED`, and a download's lifecycle
  state `Queued/Downloading/Finished/Error` becomes
  `QUEUED/DOWNLOADING/FINISHED/ERROR`. Lists are mapped element by element and
  every other field is copied.
- It has two resolvers on a download, `manga` and `chapter`. Each clears the
  cached entry for its key when the download is `FINISHED`, and then asks the
  data loader for that key. The model writes each resolver as a function that
  returns the ordered list of its effects, e.g. `[ClearMangaCache(id), Load(MangaDataLoader, id)]`.
  Module `LoaderCache` gives these effects a meaning on a per-key loader cache.
  Against that meaning the order is proved right: a finished download's
  request is never answered from a stale entry.
- It has the connection adapter `toNodeList`. It returns the whole list as a
  single page with two edges only: cursor `"0"` on the first node and cursor
  `lastIndex` on the last node. The page info has no next or previous page,
  start cursor `"0"` and end cursor `lastIndex.toString()`. For an empty list
  that end cursor is `"-1"`, and the model keeps that value as the code has it.
  Cursors are decimal renderings of an index. Module `Decimal` models Kotlin's
  `Int.toString()` and gives it a decoder, so the proofs can show that each
  cursor points at the position of its node.

Modules: `Kotlin` (nullable values, `Int`, `Float`), `Decimal`, `DownloadModel`
(the downloader's own records, data only), `DownloadTypes`, `LoaderCache`,
`DownloadNodeList`.

## Model

| member | source | states |
|---|---|---|
| `Decimal.NatToString` | server/src/main/kotlin/suwayomi/tachidesk/graphql/types/DownloadType.kt:150 | the rendering is a non-empty string of digits with no leading zero |
| `Decimal.IntToString` | server/src/main/kotlin/suwayomi/tachidesk/graphql/types/DownloadType.kt:150 | `Int.toString()`: non-empty, and starts with '-' exactly when the value is negative |
| `Decimal.IntToStringRoundTrip` | server/src/main/kotlin/suwayomi/tachidesk/graphql/types/DownloadType.kt:150 | decoding a rendering gives back the integer, negatives included |
| `Decimal.IntToStringInjective` | server/src/main/kotlin/suwayomi/tachidesk/graphql/types/DownloadType.kt:163 | distinct indices render as distinct cursors |
| `DownloadTypes.ToDownloaderState` | server/src/main/kotlin/suwayomi/tachidesk/graphql/types/DownloadType.kt:34-37 | Stopped goes to STOPPED and Started to STARTED, in both directions of each equivalence |
| `DownloadTypes.StatusOf` | server/src/main/kotlin/suwayomi/tachidesk/graphql/types/DownloadType.kt:124-127 | every public run state is the translation of some run state (the translation is onto) |
| `DownloadTypes.ToDownloadState` | server/src/main/kotlin/suwayomi/tachidesk/graphql/types/DownloadType.kt:77-82 | each of the four lifecycle states goes to its own public state, in both directions |
| `DownloadTypes.InternalStateOf` | server/src/main/kotlin/suwayomi/tachidesk/graphql/types/DownloadType.kt:117-122 | every public lifecycle state is the translation of some lifecycle state (onto) |
| `DownloadTypes.TranslationsAreBijections` | server/src/main/kotlin/suwayomi/tachidesk/graphql/types/DownloadType.kt:77-82 | both translations are injective and inverted by their partners: no variant merged or dropped |
| `DownloadTypes.FromDownloadChapter` | server/src/main/kotlin/suwayomi/tachidesk/graphql/types/DownloadType.kt:74-86 | chapter id, manga id, progress, tries and position copied; state translated |
| `DownloadTypes.FromDownloadChapterInjective` | server/src/main/kotlin/suwayomi/tachidesk/graphql/types/DownloadType.kt:74-86 | two downloads with the same public view are the same download |
| `DownloadTypes.MapDownloads` | server/src/main/kotlin/suwayomi/tachidesk/graphql/types/DownloadType.kt:38 | the queue keeps its length and order, element i converted from element i |
| `DownloadTypes.FromDownloadUpdate` | server/src/main/kotlin/suwayomi/tachidesk/graphql/types/DownloadType.kt:111-114 | the update type copied, the download converted |
| `DownloadTypes.MapUpdates` | server/src/main/kotlin/suwayomi/tachidesk/graphql/types/DownloadType.kt:58 | the updates keep their length and order, element i converted from element i |
| `DownloadTypes.FromDownloadStatus` | server/src/main/kotlin/suwayomi/tachidesk/graphql/types/DownloadType.kt:33-39 | run state translated; queue mapped element-wise with length and order kept |
| `DownloadTypes.FromDownloadUpdates` | server/src/main/kotlin/suwayomi/tachidesk/graphql/types/DownloadType.kt:53-61 | run state translated; updates mapped element-wise; `initial` null exactly when the source's is, else mapped element-wise; `omittedUpdates` copied |
| `DownloadTypes.RunStateAgrees` | server/src/main/kotlin/suwayomi/tachidesk/graphql/types/DownloadType.kt:33-61 | a status snapshot and an update message with the same run state report it identically |
| `DownloadTypes.Manga` | server/src/main/kotlin/suwayomi/tachidesk/graphql/types/DownloadType.kt:88-95 | ends with the manga loader request for mangaId; holds the clear of mangaId exactly when FINISHED; nothing but that clear comes before the request |
| `DownloadTypes.Chapter` | server/src/main/kotlin/suwayomi/tachidesk/graphql/types/DownloadType.kt:97-104 | ends with the chapter loader request for chapterId; holds the clear of (chapterId, mangaId) exactly when FINISHED; nothing but that clear comes before the request |
| `LoaderCache.Step` | server/src/main/kotlin/suwayomi/tachidesk/graphql/types/DownloadType.kt:88-104 | a clear evicts its key from its loader's cache and touches nothing else; a request leaves its key cached |
| `LoaderCache.CachedAnswersAppend` | server/src/main/kotlin/suwayomi/tachidesk/graphql/types/DownloadType.kt:88-104 | running two effect lists one after the other is running their concatenation |
| `LoaderCache.ClearIsIdempotent` | server/src/main/kotlin/suwayomi/tachidesk/graphql/types/DownloadType.kt:89-92 | clearing the same key twice in succession equals clearing it once |
| `LoaderCache.MangaAnswer` | server/src/main/kotlin/suwayomi/tachidesk/graphql/types/DownloadType.kt:88-95 | the manga request is answered from the cache iff the download is not FINISHED and the manga is cached; afterwards only the manga key was added |
| `LoaderCache.ChapterAnswer` | server/src/main/kotlin/suwayomi/tachidesk/graphql/types/DownloadType.kt:97-104 | the chapter request is answered from the cache iff the download is not FINISHED and the chapter is cached; afterwards only the chapter key was added |
| `LoaderCache.FinishedResolvesFreshEveryTime` | server/src/main/kotlin/suwayomi/tachidesk/graphql/types/DownloadType.kt:88-104 | resolving a finished download twice answers both requests afresh: the clear is not skipped the second time |
| `LoaderCache.RequestBeforeClearIsStale` | server/src/main/kotlin/suwayomi/tachidesk/graphql/types/DownloadType.kt:88-95 | with the opposite order, a finished download whose manga is cached would be answered from the stale entry |
| `DownloadNodeList.GetEdges` | server/src/main/kotlin/suwayomi/tachidesk/graphql/types/DownloadType.kt:155-167 | no edges exactly for the empty list; otherwise exactly two: ("0", first node) and (lastIndex, last node) |
| `DownloadNodeList.ToNodeList` | server/src/main/kotlin/suwayomi/tachidesk/graphql/types/DownloadType.kt:141-153 | nodes are the input, totalCount its size, no next or previous page, start cursor "0", end cursor the rendering of size - 1 |
| `DownloadNodeList.EdgeCursorsLocateNodes` | server/src/main/kotlin/suwayomi/tachidesk/graphql/types/DownloadType.kt:155-167 | every edge's cursor decodes to an index of the list holding that edge's node |
| `DownloadNodeList.PageCursorsDecode` | server/src/main/kotlin/suwayomi/tachidesk/graphql/types/DownloadType.kt:146-151 | the start cursor decodes to 0 and the end cursor to size - 1 (so -1 when empty) |
| `DownloadNodeList.BoundaryEdgesCarryPageCursors` | server/src/main/kotlin/suwayomi/tachidesk/graphql/types/DownloadType.kt:149-163 | for a non-empty list the first edge has the start cursor and the last edge the end cursor |
| `DownloadNodeList.EdgeCursorsDistinct` | server/src/main/kotlin/suwayomi/tachidesk/graphql/types/DownloadType.kt:157-166 | with two or more nodes the two edges have different cursors |
| `DownloadNodeList.SingletonNodeList` | server/src/main/kotlin/suwayomi/tachidesk/graphql/types/DownloadType.kt:155-167 | one node: both edges point at it with cursor "0", and the end cursor is "0" |
| `DownloadNodeList.EmptyNodeList` | server/src/main/kotlin/suwayomi/tachidesk/graphql/types/DownloadType.kt:141-156 | the empty list: no nodes, no edges, total 0, cursors "0" and "-1" |
| `DownloadNodeList.ThreeNodeList` | server/src/main/kotlin/suwayomi/tachidesk/graphql/types/DownloadType.kt:141-167 | [A, B, C]: edges ("0", A) and ("2", C), page from "0" to "2", total 3 |

## Left out

- `webUI/react/src/App.tsx`: React routing, rendering and HTTP fetches. There is no logic in it to state.
- GraphQL annotations and descriptions, the `DataFetchingEnvironment`, `getValueFromDataLoader` and `CompletableFuture`. These are framework and async plumbing. A resolver's loader request is the effect `Load(loader, key)`, and the future it returns is not modelled.
- `MangaType.clearCacheFor` and `ChapterType.clearCacheFor` are not part of this model. Their calls are effects. In `LoaderCache` a manga clear evicts the manga key and a chapter clear evicts the chapter key. Anything else the real calls may evict is not modelled.
- The `Cursor`, `Edge`, `Node`, `NodeList` and `PageInfo` primitives are not part of this model. They are plain records here.
- `progress: Float` is kept as its 32-bit pattern and copied through. No floating-point arithmetic is modelled.
- `DownloadUpdateType` is an opaque type that is copied through. Its variants belong to the downloader and are not read here.
- `downloadChapter.chapter` is reduced to the chapter id, the only field the code reads.
- `DownloadNodeList.ToNodeList`: `totalCount` and the cursor index are unbounded integers. A JVM list never holds more than `Int.MAX_VALUE` elements, so `size` and `lastIndex` never wrap.
