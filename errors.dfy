/** The errors that flow through the acquisition pipeline. Swift's `Error` is an open
    existential; the model closes it over the kinds the core distinguishes. */
module Errors {

  /** The `URLError` codes the core names. */
  datatype UrlErrorCode =
    | NetworkConnectionLost
    | NotConnectedToInternet
    | TimedOut
    | FileDoesNotExist
    | BadServerResponse
    | OtherCode(raw: int)

  /** Any error value the core can receive or throw. */
  datatype Error =
    | Downloader(reason: YoutubeDownloaderError)  // a `YoutubeDownloaderError`
    | Url(code: UrlErrorCode)                      // a `URLError`
    | Cancellation                                 // the `CancellationError` of `Task.sleep`
    | FileError(path: string)                      // a Cocoa error of `FileManager` or `Data` I/O at `path`
    | Foreign(description: string)                 // any other error raised by a collaborator

  /** `enum YoutubeDownloaderError` (its localised descriptions are not modelled). */
  datatype YoutubeDownloaderError =
    | InvalidURL
    | InvalidResponse
    | StreamNotFound
    | DownloadableURLNotFound
    | DecodingError(cause: Error)
    | NetworkError(cause: Error)
}
