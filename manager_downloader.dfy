/** The older `YoutubeDownloader` of the manager layer: the same guards as the domain
    downloader, one download attempt and no retry, the file written into the music
    directory, and every escaping error made a `YoutubeDownloaderError`. */
module ManagerDownloader {
  import opened Wrappers
  import opened Errors
  import opened Links
  import opened DownloadingProcesses
  import opened Registry
  import opened RetryPolicy
  import opened Files

  /** The `catch` clauses of `downloadAudioAndSave`: a `YoutubeDownloaderError` is
      rethrown as it is, any other error is wrapped as `networkError`. */
  function Normalise(e: Error): (r: Error)
    ensures r.Downloader?
    ensures e.Downloader? ==> r == e
    ensures !e.Downloader? ==> r == Downloader(NetworkError(e))
  {
    if e.Downloader? then e else Downloader(NetworkError(e))
  }

  /** Normalising twice is normalising once. */
  lemma NormaliseIdempotent(e: Error)
    ensures Normalise(Normalise(e)) == Normalise(e)
  {
  }

  /** The record the progress callback builds. The app calls an initializer taking only
      a file name and a progress; the byte counts, which it never passes, are 0 here. */
  function ManagerRecords(id: string, fileName: string, reports: seq<ProgressReport>): (r: seq<DownloadingProcess>)
    ensures |r| == |reports|
    ensures forall k :: 0 <= k < |r| ==>
      r[k] == DownloadingProcess(id, fileName, reports[k].progress, 0.0, 0.0)
    decreases |reports|
  {
    if |reports| == 0 then []
    else
      ManagerRecords(id, fileName, reports[..|reports| - 1])
        + [DownloadingProcess(id, fileName, reports[|reports| - 1].progress, 0.0, 0.0)]
  }

  class YoutubeDownloader {
    /** `currentProcesses`; its observer is `currentDownloadingProcesses`, which the
        caller sets or leaves nil (`registry.observing`). */
    const registry: ProcessRegistry
    /** `FileManager.default` */
    const fs: FileSystem

    constructor(registry0: ProcessRegistry, fs0: FileSystem)
      ensures registry == registry0 && fs == fs0
    {
      registry := registry0;
      fs := fs0;
    }

    /** `saveFile(with:fileName:)`: a plain write of `<fileName>.m4a` in the music
        directory, which replaces what was there; a failed write is `networkError`. */
    method SaveFile(data: Bytes, fileName: string) returns (r: Result<string, Error>)
      modifies fs
      ensures var path := AudioPath(MusicDir, fileName);
        && (r.Ok? <==> path !in fs.unwritable)
        && (r.Ok? ==> r.value == path && fs.files == old(fs.files)[path := data])
        && (r.Err? ==> r.error == Downloader(NetworkError(FileError(path))) && fs.files == old(fs.files))
      ensures fs.directories == old(fs.directories)
    {
      var localURL := AudioPath(MusicDir, fileName);
      var written := fs.Write(localURL, data);
      if written.Fail? {
        return Err(Downloader(NetworkError(written.error)));
      }
      return Ok(localURL);
    }

    /** `downloadFile(fileName:from:)`: a row per progress callback under the attempt's
        id; the first completion removes the row and is the result, later ones are
        ignored (`hasResumed`). */
    method DownloadFile(fileName: string, script: AttemptScript) returns (r: Result<string, Error>)
      modifies registry
      ensures r == script.completion
      ensures registry.processes == Removed(old(registry.processes), script.processId)
      ensures var records := ManagerRecords(script.processId, fileName, script.progress);
        registry.published == old(registry.published)
          + (if registry.observing then UpsertTrace(old(registry.processes), records) + [registry.processes] else [])
      ensures registry.observing == old(registry.observing)
    {
      var currentProcess := DownloadingProcess(script.processId, fileName, 0.0, 0.0, 0.0);
      var hasResumed := false;
      var records := ManagerRecords(script.processId, fileName, script.progress);
      registry.UpdateEach(records);
      ghost var afterProgress := registry.processes;
      ghost var publishedBefore := registry.published;
      var completions := [script.completion] + script.lateCompletions;
      r := script.completion;
      var i := 0;
      while i < |completions|
        invariant 0 <= i <= |completions|
        invariant hasResumed <==> i > 0
        invariant r == script.completion
        invariant registry.observing == old(registry.observing)
        invariant i == 0 ==> registry.processes == afterProgress && registry.published == publishedBefore
        invariant i > 0 ==> registry.processes == Removed(afterProgress, script.processId)
        invariant i > 0 ==> registry.published == publishedBefore + Publication(registry.observing, registry.processes)
      {
        if !hasResumed {
          hasResumed := true;
          registry.Remove(currentProcess);
          r := completions[i];
        }
        i := i + 1;
      }
      UpsertsThenRemove(old(registry.processes), records, script.processId);
    }

    /** `downloadAudioAndSave(from:)`. The guards throw `invalidURL` before any work;
        then the stream is looked up (`streamNotFound` when there is none), one attempt
        downloads it, the temporary file is read and written to the music directory,
        whose path is the result. Every error thrown is a `YoutubeDownloaderError`. */
    method DownloadAudioAndSave(urlString: string, fileName: string, parsed: Option<Url>,
                                lookup: StreamLookup, script: AttemptScript)
      returns (r: Result<string, Error>)
      modifies registry, fs
      ensures r.Err? ==> r.error.Downloader?
      ensures var link, stream := ValidateLink(urlString, parsed), ConvertedLink(lookup);
        link.Err? || stream.Err? ==>
          && r == Err(if link.Err? then link.error else Normalise(stream.error))
          && registry.processes == old(registry.processes) && registry.published == old(registry.published)
          && fs.files == old(fs.files)
      ensures var link, stream := ValidateLink(urlString, parsed), ConvertedLink(lookup);
        var path, completion := AudioPath(MusicDir, fileName), script.completion;
        link.Ok? && stream.Ok? ==>
          && registry.processes == Removed(old(registry.processes), script.processId)
          && registry.published == old(registry.published)
               + (if registry.observing
                  then UpsertTrace(old(registry.processes), ManagerRecords(script.processId, fileName, script.progress))
                       + [registry.processes]
                  else [])
          && (completion.Err? ==> r == Err(Normalise(completion.error)) && fs.files == old(fs.files))
          && (completion.Ok? && completion.value !in old(fs.files) ==>
                r == Err(Downloader(NetworkError(FileError(completion.value)))) && fs.files == old(fs.files))
          && (completion.Ok? && completion.value in old(fs.files) ==>
                && (r.Ok? <==> path !in fs.unwritable)
                && (r.Ok? ==> r.value == path && fs.files == old(fs.files)[path := old(fs.files)[completion.value]])
                && (r.Err? ==> r.error == Downloader(NetworkError(FileError(path))) && fs.files == old(fs.files)))
      ensures registry.observing == old(registry.observing)
      ensures fs.directories == old(fs.directories)
    {
      var link := ValidateLink(urlString, parsed);
      if link.Err? {
        return Err(link.error);
      }
      var downloadableURL := ConvertedLink(lookup);
      if downloadableURL.Err? {
        return Err(Normalise(downloadableURL.error));
      }
      var downloadedURL := DownloadFile(fileName, script);
      if downloadedURL.Err? {
        return Err(Normalise(downloadedURL.error));
      }
      var data := fs.Read(downloadedURL.value);
      if data.Err? {
        return Err(Normalise(data.error));
      }
      r := SaveFile(data.value, fileName);
      if r.Err? {
        r := Err(Normalise(r.error));
      }
    }
  }

  /** A lookup that finds no natively playable audio-only stream throws
      `streamNotFound` itself, not wrapped in another error. */
  lemma NoStreamIsStreamNotFound(lookup: StreamLookup)
    requires lookup == BestAudioStream(None)
    ensures Normalise(ConvertedLink(lookup).error) == Downloader(StreamNotFound)
  {
  }

  /** A failing lookup that is not a `YoutubeDownloaderError` surfaces as
      `networkError` wrapping it, where the domain downloader says `decodingError`. */
  lemma ForeignLookupErrorIsNetworkError(e: Error)
    requires !e.Downloader?
    ensures Normalise(ConvertedLink(LookupFailed(e)).error) == Downloader(NetworkError(e))
  {
  }
}
