/** `MainTabViewModel.downloadAndSave`: download through the use case, copy the file to
    `<id>.m4a` in the documents directory under a fresh id, then save a record with
    that id; any failure on the way stops quietly. */
module MainTab {
  import opened Wrappers
  import opened Errors
  import opened Links
  import opened DownloadingProcesses
  import opened Registry
  import opened RetryPolicy
  import opened Files
  import opened DownloadedAudios
  import opened AudioStore
  import opened DownloaderUseCase
  import opened SavedAudio

  /** What `downloadAndGetLocalURL` hands back: the location of the first successful
      attempt, or nothing when the link gives no stream or every attempt failed. */
  function Downloaded(parsed: Option<Url>, lookup: StreamLookup, script: nat -> AttemptScript): (r: Option<string>)
    ensures r.Some? ==> ConvertToDownloadableLink(parsed, lookup).Some?
  {
    var run := Retry(Outcomes(script), NoSleepError);
    if ConvertToDownloadableLink(parsed, lookup).Some? && run.end.Returned? then Some(run.end.location) else None
  }

  /** Whether `saveFile(from:id:)` succeeds on a store holding `files`: the source
      exists, the documents directory can be created, an existing `<id>.m4a` can be
      removed and the path written. */
  predicate CopySucceeds(fs: FileSystem, files: map<string, Bytes>, source: string, id: string) {
    var path := AudioPath(DocumentsDir, id);
    source in files && fs.canCreateDirectories && (path in files ==> path !in fs.unremovable) && path !in fs.unwritable
  }

  /** The last list the observer was handed among `published`, if any. */
  function LastPublished(published: seq<Processes>, fallback: Processes): Processes {
    if |published| == 0 then fallback else published[|published| - 1]
  }

  class MainTabViewModel {
    /** `downloadingProcesses`, the list the view shows. */
    var downloadingProcesses: Processes
    /** How many times `audioPlayerUseCase.updateAllSongsList()` has been called. */
    var allSongsListUpdates: nat
    /** `youtubeDownloaderUseCase` */
    const downloader: YoutubeDownloaderUseCase
    /** `savedAudioUseCase`, whose file system is `FileManager.default` */
    const savedAudio: SavedAudioUseCase

    constructor(downloader0: YoutubeDownloaderUseCase, savedAudio0: SavedAudioUseCase)
      ensures downloader == downloader0 && savedAudio == savedAudio0
      ensures downloadingProcesses == [] && allSongsListUpdates == 0
    {
      downloader := downloader0;
      savedAudio := savedAudio0;
      downloadingProcesses := [];
      allSongsListUpdates := 0;
    }

    /** `saveFile(from:id:)`: read the downloaded file, create the documents directory,
        remove an existing `<id>.m4a`, write the bytes there. Every failure gives nil. */
    method SaveFile(source: string, id: string) returns (r: Option<string>)
      modifies savedAudio.fs
      ensures var fs, path := savedAudio.fs, AudioPath(DocumentsDir, id);
        && (r.Some? <==> CopySucceeds(fs, old(fs.files), source, id))
        && (r.Some? ==> r.value == path && fs.files == old(fs.files)[path := old(fs.files)[source]])
        && AgreeExcept(fs.files, old(fs.files), path)
        && (source !in old(fs.files) || !fs.canCreateDirectories ==> fs.files == old(fs.files))
        && (r.None? && source in old(fs.files) && fs.canCreateDirectories ==>
              fs.files == (if path in old(fs.files) && path !in fs.unremovable then old(fs.files) - {path} else old(fs.files)))
        && old(fs.directories) <= fs.directories <= old(fs.directories) + {DocumentsDir}
    {
      var fs := savedAudio.fs;
      var data := fs.Read(source);
      if data.Err? {
        return None;
      }
      var made := fs.CreateDirectory(DocumentsDir);
      if made.Fail? {
        return None;
      }
      var localURL := AudioPath(DocumentsDir, id);
      var written := fs.Overwrite(localURL, data.value);
      if written.Fail? {
        return None;
      }
      return Some(localURL);
    }

    /** The part of `downloadAndSave` after the download returned `source`: copy it to
        `<newId>.m4a`, then, once the duration is known, save the record and refresh the
        songs list. A successful copy stays in place whatever fails after it. */
    method StoreDownload(source: string, fileName: string, keyword: string, imgURL: string,
                         newId: string, now: int, duration: Result<real, Error>)
      modifies this, savedAudio.fs, savedAudio.repository
      ensures var fs, store, path := savedAudio.fs, savedAudio.repository, AudioPath(DocumentsDir, newId);
        var saved := CopySucceeds(fs, old(fs.files), source, newId) && duration.Ok? && !store.rejectsSaves;
        && AgreeExcept(fs.files, old(fs.files), path)
        && (CopySucceeds(fs, old(fs.files), source, newId) ==> fs.files == old(fs.files)[path := old(fs.files)[source]])
        && (saved ==>
              && store.audios == old(store.audios)
                   + [NewDownloadedAudio(newId, now, fileName, keyword, imgURL := Some(imgURL), duration := duration.value)]
              && allSongsListUpdates == old(allSongsListUpdates) + 1)
        && (!saved ==> store.audios == old(store.audios) && allSongsListUpdates == old(allSongsListUpdates))
      ensures downloadingProcesses == old(downloadingProcesses)
    {
      var localURL := SaveFile(source, newId);
      if localURL.None? {
        return;
      }
      if duration.Err? {
        return;
      }
      var downloadedAudio := NewDownloadedAudio(newId, now, fileName, keyword,
                                                imgURL := Some(imgURL), duration := duration.value);
      var result := savedAudio.SaveAudio(downloadedAudio);
      if result.Fail? {
        return;
      }
      allSongsListUpdates := allSongsListUpdates + 1;
    }

    /** `downloadAndSave(fileName:keyword:imgURL:)`. `newId` is the generated
        `idForDownloadedAudio`, `now` the record's creation time and `duration` what
        `audioPlayerUseCase.getDuration` yields. The file goes to `<newId>.m4a`, and a
        record with id `newId`, titled `fileName`, from `keyword`, with cover `imgURL`, is
        saved only once the file is, after which the songs list is refreshed. */
    method DownloadAndSave(fileName: string, keyword: string, imgURL: string, parsed: Option<Url>,
                           lookup: StreamLookup, script: nat -> AttemptScript,
                           newId: string, now: int, duration: Result<real, Error>)
      modifies this, downloader, downloader.registry, savedAudio.fs, savedAudio.repository
      ensures var downloaded, fs, store := Downloaded(parsed, lookup, script), savedAudio.fs, savedAudio.repository;
        var path := AudioPath(DocumentsDir, newId);
        var saved := downloaded.Some? && CopySucceeds(fs, old(fs.files), downloaded.value, newId)
                     && duration.Ok? && !store.rejectsSaves;
        && (downloaded.None? ==> fs.files == old(fs.files))
        && AgreeExcept(fs.files, old(fs.files), path)
        && (downloaded.Some? && CopySucceeds(fs, old(fs.files), downloaded.value, newId) ==>
              fs.files == old(fs.files)[path := old(fs.files)[downloaded.value]])
        && (saved ==>
              && store.audios == old(store.audios)
                   + [NewDownloadedAudio(newId, now, fileName, keyword, imgURL := Some(imgURL), duration := duration.value)]
              && allSongsListUpdates == old(allSongsListUpdates) + 1)
        && (!saved ==> store.audios == old(store.audios) && allSongsListUpdates == old(allSongsListUpdates))
      ensures old(downloader.registry.published) <= downloader.registry.published
      ensures var published := downloader.registry.published;
        downloadingProcesses == LastPublished(published[|old(downloader.registry.published)|..], old(downloadingProcesses))
    {
      var before := |downloader.registry.published|;
      var downloadedPath, attempts, delays := downloader.DownloadAndGetLocalURL(fileName, keyword, parsed, lookup, script);
      // The observer's deliveries, of which the view keeps the last.
      var published := downloader.registry.published;
      downloadingProcesses := LastPublished(published[before..], downloadingProcesses);
      if downloadedPath.None? {
        return;
      }
      var idForDownloadedAudio := newId;
      StoreDownload(downloadedPath.value, fileName, keyword, imgURL, idForDownloadedAudio, now, duration);
    }
  }

  /** The record saved for a download names the file it was copied to: its id is the
      stem of `<id>.m4a`, and the probing lookup finds that file. */
  lemma SavedRecordFindsItsFile(files: map<string, Bytes>, newId: string, now: int, fileName: string,
                                keyword: string, imgURL: string, d: real, data: Bytes)
    ensures var a := NewDownloadedAudio(newId, now, fileName, keyword, imgURL := Some(imgURL), duration := d);
      var files' := files[AudioPath(DocumentsDir, newId) := data];
      && ProbedLocalPath(files', a) == Ok(AudioPath(DocumentsDir, a.id))
      && (fileName != newId && AudioPath(DocumentsDir, fileName) !in files ==> LocalPath(files', a).Err?)
  {
    var a := NewDownloadedAudio(newId, now, fileName, keyword, imgURL := Some(imgURL), duration := d);
    if fileName != newId {
      AudioPathInjective(DocumentsDir, fileName, newId);
    }
  }
}
