/** Link handling ahead of a download: what Foundation's URL parser and YouTubeKit
    report are inputs; the guards and the converter built on them are modelled. */
module Links {
  import opened Wrappers
  import opened Text
  import opened Errors

  /** What `URL(string:)` yields for a string it accepts: the string and `url.host`. */
  datatype Url = Url(absolute: string, host: Option<string>)

  /** What YouTubeKit reports for a watch link: fetching its streams failed with
      `error`, or the highest-bitrate natively playable audio-only stream, if any. */
  datatype StreamLookup = LookupFailed(error: Error) | BestAudioStream(url: Option<string>)

  /** `url.host?.contains("youtube.com") == true || url.host?.contains("youtu.be") == true` */
  predicate IsYoutubeHost(host: Option<string>) {
    host.Some? && (Contains(host.value, "youtube.com") || Contains(host.value, "youtu.be"))
  }

  /** The two guards that open both `downloadAudioAndSave` functions: an empty string,
      a string the parser refuses, or a host outside the two YouTube domains is
      `invalidURL`; anything else goes on with the parsed URL. */
  function ValidateLink(urlString: string, parsed: Option<Url>): (r: Result<Url, Error>)
    ensures r.Ok? <==> urlString != [] && parsed.Some? && IsYoutubeHost(parsed.value.host)
    ensures r.Ok? ==> r.value == parsed.value
    ensures r.Err? ==> r.error == Downloader(InvalidURL)
  {
    if urlString == [] then Err(Downloader(InvalidURL))
    else if parsed.None? || !IsYoutubeHost(parsed.value.host) then Err(Downloader(InvalidURL))
    else Ok(parsed.value)
  }

  /** `YoutubeDownloadableLinkConverter.getDownloadableURL`: the chosen stream's URL;
      `streamNotFound` when there is none; the lookup's own error when it failed. */
  function ConvertedLink(lookup: StreamLookup): (r: Result<string, Error>)
    ensures r.Ok? <==> lookup.BestAudioStream? && lookup.url.Some?
    ensures r.Ok? ==> r.value == lookup.url.value
    ensures lookup.LookupFailed? ==> r == Err(lookup.error)
    ensures lookup == BestAudioStream(None) ==> r == Err(Downloader(StreamNotFound))
  {
    match lookup
    case LookupFailed(e) => Err(e)
    case BestAudioStream(None) => Err(Downloader(StreamNotFound))
    case BestAudioStream(Some(u)) => Ok(u)
  }
}
