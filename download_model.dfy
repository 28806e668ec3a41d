/**
 * The downloader's own records (package `manga.impl.download.model`), which the
 * GraphQL download types are built from. Only the fields those types read are kept.
 */
module DownloadModel {
  import opened Kotlin

  /** Whether the downloader is running. */
  datatype Status = Stopped | Started

  /** Lifecycle of one queued chapter download. */
  datatype DownloadState = Queued | Downloading | Finished | Error

  /** The kind of a download update; its variants belong to the downloader and are copied through unread. */
  type DownloadUpdateType(==)

  /** The chapter a download is for; only its id is read. */
  datatype Chapter = Chapter(id: Int32)

  datatype DownloadChapter = DownloadChapter(
    chapter: Chapter,
    mangaId: Int32,
    state: DownloadState,
    progress: Float,
    tries: Int32,
    position: Int32)

  datatype DownloadStatus = DownloadStatus(status: Status, queue: seq<DownloadChapter>)

  datatype DownloadUpdate = DownloadUpdate(updateType: DownloadUpdateType, downloadChapter: DownloadChapter)

  /** `initial` is the whole queue on the first message of a subscription and null afterwards. */
  datatype DownloadUpdates = DownloadUpdates(
    status: Status,
    updates: seq<DownloadUpdate>,
    initial: Option<seq<DownloadChapter>>)
}
