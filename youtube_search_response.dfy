/** The search-result entities and the watch link built from a video id. */
module SearchResults {
  import opened Wrappers
  import opened Text
  import opened Links

  datatype ThumbnailInfo = ThumbnailInfo(url: string)
  datatype Thumbnail = Thumbnail(medium: ThumbnailInfo)
  datatype Snippet = Snippet(title: string, thumbnail: Thumbnail)
  datatype VideoID = VideoID(videoId: string)
  datatype YoutubeSearchItem = YoutubeSearchItem(snippet: Snippet, id: VideoID)
  datatype YoutubeSearchResponse = YoutubeSearchResponse(items: seq<YoutubeSearchItem>)

  const WatchHost: string := "www.youtube.com"
  const WatchPrefix: string := "https://" + WatchHost + "/watch?v="
  const DummyThumbnailURL: string := "https://www.bigfootdigital.co.uk/wp-content/uploads/2020/07/image-optimisation-scaled.jpg"
  const DummyVideoId: string := "dQw4w9WgXcQ"

  /** `getYoutubeURL()`: the watch link of the video. */
  function GetYoutubeURL(v: VideoID): (r: string)
    ensures |r| == 32 + |v.videoId|
    ensures StartsWith(r, WatchPrefix) && EndsWith(r, v.videoId)
    ensures r[8..23] == WatchHost
  {
    var r := WatchPrefix + v.videoId;
    assert |WatchPrefix| == 32;
    assert forall i | 8 <= i < 23 :: r[i] == WatchHost[i - 8];
    r
  }

  /** The video id a watch link carries, if it is one. */
  function VideoIdOf(url: string): (r: Option<VideoID>)
    ensures r.Some? <==> StartsWith(url, WatchPrefix)
  {
    if StartsWith(url, WatchPrefix) then Some(VideoID(url[|WatchPrefix|..])) else None
  }

  /** A watch link gives back the id it was built from. */
  lemma VideoIdRoundTrip(v: VideoID)
    ensures VideoIdOf(GetYoutubeURL(v)) == Some(v)
  {
    var r := GetYoutubeURL(v);
    assert r[|WatchPrefix|..] == v.videoId;
  }

  /** Different videos have different watch links. */
  lemma GetYoutubeURLInjective(v: VideoID, w: VideoID)
    requires GetYoutubeURL(v) == GetYoutubeURL(w)
    ensures v == w
  {
    VideoIdRoundTrip(v);
    VideoIdRoundTrip(w);
  }

  /** The link's host, `www.youtube.com`, passes the downloaders' host guard, so a
      link parsed with that host is accepted. */
  lemma WatchLinkPassesHostGuard(v: VideoID)
    ensures IsYoutubeHost(Some(GetYoutubeURL(v)[8..23]))
    ensures var r := GetYoutubeURL(v); ValidateLink(r, Some(Url(r, Some(WatchHost)))) == Ok(Url(r, Some(WatchHost)))
  {
    assert WatchHost[4..4 + |"youtube.com"|] == "youtube.com";
    ContainsAt(WatchHost, "youtube.com", 4);
  }

  /** `getDummyItems()`: nine copies of one placeholder result. */
  function GetDummyItems(): (r: seq<YoutubeSearchItem>)
    ensures |r| == 9
    ensures forall i :: 0 <= i < |r| ==> r[i] == r[0]
    ensures forall i :: 0 <= i < |r| ==> r[i].id.videoId == DummyVideoId && r[i].snippet.title == "Dummy Video Title"
  {
    var thumbnailInfo := ThumbnailInfo(DummyThumbnailURL);
    var thumbnail := Thumbnail(thumbnailInfo);
    var snippet := Snippet("Dummy Video Title", thumbnail);
    var videoID := VideoID(DummyVideoId);
    var item := YoutubeSearchItem(snippet, videoID);
    seq(9, _ => item)
  }

  /** Every placeholder result links to the watch page of the same video, and the
      link passes the host guard. */
  lemma DummyItemsLink(i: nat)
    requires i < |GetDummyItems()|
    ensures var url := GetYoutubeURL(GetDummyItems()[i].id);
      VideoIdOf(url) == Some(VideoID(DummyVideoId)) && ValidateLink(url, Some(Url(url, Some(WatchHost)))).Ok?
  {
    VideoIdRoundTrip(GetDummyItems()[i].id);
    WatchLinkPassesHostGuard(GetDummyItems()[i].id);
  }
}
