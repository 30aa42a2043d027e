/** `DownloadedAudio`, the persisted record of a saved track. */
module DownloadedAudios {
  import opened Wrappers
  import opened Text
  import opened Files

  /** The stored properties. `playlist` holds the ids of the playlists the track is in;
      `downloadDate` is the creation time, in clock ticks. */
  datatype DownloadedAudio = DownloadedAudio(
    id: string,
    title: string,
    playlist: seq<string>,
    originalURL: string,
    imgURL: Option<string>,
    downloadDate: int,
    duration: real)

  /** `init(id:title:originalURL:imgURL:duration:playlist:)`; the generated UUID and
      `Date()` are the parameters `id` and `now`. */
  function NewDownloadedAudio(id: string, now: int, title: string, originalURL: string,
                              imgURL: Option<string> := None, duration: real := 0.0,
                              playlist: seq<string> := []): (r: DownloadedAudio)
    ensures r.id == id && r.title == title && r.originalURL == originalURL && r.imgURL == imgURL
    ensures r.downloadDate == now && r.duration == duration && r.playlist == playlist
  {
    DownloadedAudio(id, title, playlist, originalURL, imgURL, now, duration)
  }

  /** With the optional arguments left out, a record has no cover image, a zero
      duration and no playlist. */
  lemma InitDefaults(id: string, now: int, title: string, originalURL: string)
    ensures var a := NewDownloadedAudio(id, now, title, originalURL);
      a.imgURL.None? && a.duration == 0.0 && a.playlist == []
  {
  }

  /** `getImageURL()`. `fileExists` answers `FileManager.fileExists(atPath:)`. */
  function GetImageURL(a: DownloadedAudio, fileExists: string -> bool): (r: Option<string>)
    ensures a.imgURL.None? ==> r.None?
    ensures a.imgURL.Some? && StartsWith(a.imgURL.value, "http") ==> r == a.imgURL
    ensures a.imgURL.Some? && !StartsWith(a.imgURL.value, "http") ==>
      r == (if fileExists(Join(DocumentsDir, a.imgURL.value)) then Some(Join(DocumentsDir, a.imgURL.value)) else None)
  {
    match a.imgURL
    case None => None
    case Some(img) =>
      if StartsWith(img, "http") then Some(img)
      else
        var fileURL := Join(DocumentsDir, img);
        if !fileExists(fileURL) then None else Some(fileURL)
  }

  /** What `getImageURL` returns is a remote address taken verbatim, or a file in the
      documents directory that exists; a remote address never needs the file system. */
  lemma ImageURLIsRemoteOrExisting(a: DownloadedAudio, fileExists: string -> bool, other: string -> bool)
    ensures var r := GetImageURL(a, fileExists);
      r.Some? ==>
        (r == a.imgURL && StartsWith(r.value, "http"))
        || (fileExists(r.value) && StartsWith(r.value, DocumentsDir + "/") && EndsWith(r.value, a.imgURL.value))
    ensures a.imgURL.Some? && StartsWith(a.imgURL.value, "http") ==> GetImageURL(a, fileExists) == GetImageURL(a, other)
  {
    var r := GetImageURL(a, fileExists);
    if r.Some? && !StartsWith(a.imgURL.value, "http") {
      assert r.value == DocumentsDir + "/" + a.imgURL.value;
      assert r.value[..|DocumentsDir + "/"|] == DocumentsDir + "/";
      assert r.value[|r.value| - |a.imgURL.value|..] == a.imgURL.value;
    }
  }

  /** The first index of a record with that id (`firstIndex(where: { $0.id == id })`). */
  function IndexOfId(s: seq<DownloadedAudio>, id: string): (r: Option<nat>)
    ensures r.Some? ==> r.value < |s| && s[r.value].id == id
    ensures r.Some? ==> forall j :: 0 <= j < r.value ==> s[j].id != id
    ensures r.None? ==> forall j :: 0 <= j < |s| ==> s[j].id != id
  {
    if |s| == 0 then None
    else if s[0].id == id then Some(0)
    else match IndexOfId(s[1..], id)
      case Some(i) => Some(i + 1)
      case None =>
        assert forall j :: 1 <= j < |s| ==> s[j] == s[1..][j - 1];
        None
  }
}
