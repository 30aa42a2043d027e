/** `YoutubeDownloaderUseCaseImpl`: resolve a watch link to a stream, download it with
    up to three attempts, and report the downloaded file's location or nothing. */
module DownloaderUseCase {
  import opened Wrappers
  import opened Errors
  import opened Links
  import opened DownloadingProcesses
  import opened Registry
  import opened RetryPolicy
  import opened Attempts

  /** How each attempt ends, as the retry loop sees it. */
  function Outcomes(script: nat -> AttemptScript): nat -> Attempt {
    (k: nat) => AttemptOf(script(k).completion)
  }

  /** `convertToDownloadableLink(youtubeLink:)`: a string the URL parser refuses, or any
      error of the converter, gives nil. Unlike the domain downloader, no host check. */
  function ConvertToDownloadableLink(parsed: Option<Url>, lookup: StreamLookup): (r: Option<string>)
    ensures r.Some? <==> parsed.Some? && ConvertedLink(lookup).Ok?
    ensures r.Some? ==> r.value == ConvertedLink(lookup).value
  {
    if parsed.None? then None
    else
      match ConvertedLink(lookup)
      case Ok(link) => Some(link)
      case Err(_) => None
  }

  /** Any failure of the stream lookup, `streamNotFound` included, means no link. */
  lemma NoStreamNoLink(parsed: Option<Url>, lookup: StreamLookup)
    requires lookup.LookupFailed? || lookup.url.None?
    ensures ConvertToDownloadableLink(parsed, lookup).None?
  {
  }

  /** The retry loop's view of attempt `k` succeeding after `k` failures. */
  lemma SucceedsAt(script: nat -> AttemptScript, k: nat)
    requires k < MaxAttempts && script(k).completion.Ok?
    requires RetriedThrough(Outcomes(script), NoSleepError, k)
    ensures Retry(Outcomes(script), NoSleepError) == RetryRun(Returned(script(k).completion.value), k + 1, Backoffs(k))
  {
    RetriedThroughAll(Outcomes(script), NoSleepError, k);
    FirstSuccessEnds(Outcomes(script), NoSleepError, k);
  }

  /** The retry loop's view of attempt `k` failing after `k` failures. */
  lemma FailsAt(script: nat -> AttemptScript, k: nat)
    requires script(k).completion.Err?
    requires RetriedThrough(Outcomes(script), NoSleepError, k)
    ensures RetriedThrough(Outcomes(script), NoSleepError, k + 1)
  {
  }

  /** Three failures exhaust the loop. */
  lemma FailsThroughout(script: nat -> AttemptScript)
    requires RetriedThrough(Outcomes(script), NoSleepError, MaxAttempts)
    ensures Retry(Outcomes(script), NoSleepError) == RetryRun(Exhausted(script(2).completion.error), 3, Backoffs(2))
  {
    RetriedThroughAll(Outcomes(script), NoSleepError, MaxAttempts);
    AllFailuresExhaust(Outcomes(script), NoSleepError);
    BackoffsValues();
  }

  class YoutubeDownloaderUseCase {
    /** `currentProcesses` and `currentDownloadingProcessesUpdated` */
    const registry: ProcessRegistry
    /** The keys of `activeDownloads`. */
    var activeDownloads: set<string>

    constructor(registry0: ProcessRegistry)
      ensures registry == registry0 && activeDownloads == {}
    {
      registry := registry0;
      activeDownloads := {};
    }

    /** `downloadFile(fileName:from:)`, one attempt. The attempt registers under its
        process id, publishes a row per progress callback, and its first completion
        alone takes effect: the id leaves `activeDownloads` and the registry, and that
        completion is the result. Later completions are ignored (`hasResumed`). */
    method DownloadFile(fileName: string, script: AttemptScript) returns (r: Result<string, Error>)
      modifies this, registry
      ensures r == script.completion
      ensures activeDownloads == old(activeDownloads) - {script.processId}
      ensures registry.processes == Removed(old(registry.processes), script.processId)
      ensures var records := ProgressRecords(script.processId, fileName, script.progress);
        registry.published == old(registry.published)
          + (if registry.observing then UpsertTrace(old(registry.processes), records) + [registry.processes] else [])
      ensures registry.observing == old(registry.observing)
    {
      var hasResumed := false;
      var currentProcess := DownloadingProcess(script.processId, fileName, 0.0, 0.0, 0.0);
      activeDownloads := activeDownloads + {currentProcess.id};
      var records := ProgressRecords(script.processId, fileName, script.progress);
      registry.UpdateEach(records);
      if |records| > 0 {
        currentProcess := records[|records| - 1];
      }
      ghost var afterProgress := registry.processes;
      ghost var publishedBefore := registry.published;
      var completions := [script.completion] + script.lateCompletions;
      r := script.completion;
      var i := 0;
      while i < |completions|
        invariant 0 <= i <= |completions|
        invariant hasResumed <==> i > 0
        invariant r == script.completion
        invariant registry.observing == old(registry.observing)
        invariant i == 0 ==> activeDownloads == old(activeDownloads) + {script.processId}
        invariant i == 0 ==> registry.processes == afterProgress && registry.published == publishedBefore
        invariant i > 0 ==> activeDownloads == old(activeDownloads) - {script.processId}
        invariant i > 0 ==> registry.processes == Removed(afterProgress, script.processId)
        invariant i > 0 ==> registry.published == publishedBefore + Publication(registry.observing, registry.processes)
      {
        if !hasResumed {
          hasResumed := true;
          activeDownloads := activeDownloads - {currentProcess.id};
          match completions[i] {
            case Ok(location) =>
              r := Ok(location);
              registry.Remove(currentProcess);
            case Err(e) =>
              registry.Remove(currentProcess);
              r := Err(e);
          }
        }
        i := i + 1;
      }
      UpsertsThenRemove(old(registry.processes), records, script.processId);
    }

    /** Attempt `n` of the retry loop: one `downloadFile`, whose completion is the result. */
    method NextAttempt(fileName: string, script: nat -> AttemptScript, n: nat,
                       ghost s0: Processes, ghost active0: set<string>, ghost published0: seq<Processes>)
      returns (result: Result<string, Error>)
      requires AfterAttempts(registry, activeDownloads, s0, active0, published0, fileName, script, n)
      modifies this, registry
      ensures result == script(n).completion
      ensures AfterAttempts(registry, activeDownloads, s0, active0, published0, fileName, script, n + 1)
      ensures registry.observing == old(registry.observing)
    {
      ghost var published := registry.published;
      result := DownloadFile(fileName, script(n));
      AttemptAdvances(s0, published0, fileName, script, n, registry.observing,
                      published, registry.processes, registry.published);
    }

    /** `downloadFileWithRetry(fileName:from:)`: attempts until one succeeds or three
        have failed, sleeping 2^retryCount seconds after each failure that will be
        retried; a failed sleep is ignored (`try?`). Returns the location or nil, the
        attempts made and the delays asked for, and leaves no row or active download
        of its attempts behind. */
    method DownloadFileWithRetry(fileName: string, script: nat -> AttemptScript)
      returns (r: Option<string>, attempts: nat, delays: seq<nat>)
      modifies this, registry
      ensures var run := Retry(Outcomes(script), NoSleepError);
        && attempts == run.attempts && delays == run.delays
        && r == (if run.end.Returned? then Some(run.end.location) else None)
      ensures activeDownloads == old(activeDownloads) - AttemptIdSet(script, attempts)
      ensures registry.processes == Remaining(old(registry.processes), script, attempts)
      ensures registry.published == old(registry.published)
        + (if registry.observing then AttemptsTrace(old(registry.processes), fileName, script, attempts) else [])
      ensures registry.observing == old(registry.observing)
    {
      ghost var s0, active0, published0 := registry.processes, activeDownloads, registry.published;
      var retryCount := 0;
      var lastError: Option<Error> := None;
      delays := [];
      while retryCount < MaxAttempts
        invariant 0 <= retryCount <= MaxAttempts
        invariant RetriedThrough(Outcomes(script), NoSleepError, retryCount)
        invariant delays == Backoffs(if retryCount < MaxAttempts then retryCount else MaxAttempts - 1)
        invariant AfterAttempts(registry, activeDownloads, s0, active0, published0, fileName, script, retryCount)
        invariant registry.observing == old(registry.observing)
      {
        var result := NextAttempt(fileName, script, retryCount, s0, active0, published0);
        match result {
          case Ok(location) =>
            SucceedsAt(script, retryCount);
            r := Some(location);
            attempts := retryCount + 1;
            assert AfterAttempts(registry, activeDownloads, s0, active0, published0, fileName, script, attempts);
            return;
          case Err(error) =>
            FailsAt(script, retryCount);
            lastError := Some(error);
            retryCount := retryCount + 1;
            if retryCount < MaxAttempts {
              delays := delays + [Pow2(retryCount)];
            }
        }
      }
      FailsThroughout(script);
      r := None;
      attempts := MaxAttempts;
      assert AfterAttempts(registry, activeDownloads, s0, active0, published0, fileName, script, attempts);
    }

    /** `downloadAndGetLocalURL(fileName:youtubeLink:currentDownloadingProcessesUpdated:)`.
        `parsed` is what `URL(string:)` makes of the link and `lookup` what YouTubeKit
        reports for it. No conversion, no attempt; otherwise the retry loop decides. */
    method DownloadAndGetLocalURL(fileName: string, youtubeLink: string, parsed: Option<Url>,
                                  lookup: StreamLookup, script: nat -> AttemptScript)
      returns (r: Option<string>, attempts: nat, delays: seq<nat>)
      modifies this, registry
      ensures registry.observing
      ensures ConvertToDownloadableLink(parsed, lookup).None? ==>
        r.None? && attempts == 0 && delays == []
        && activeDownloads == old(activeDownloads) && registry.processes == old(registry.processes)
        && registry.published == old(registry.published)
      ensures ConvertToDownloadableLink(parsed, lookup).Some? ==>
        var run := Retry(Outcomes(script), NoSleepError);
        && attempts == run.attempts && delays == run.delays
        && r == (if run.end.Returned? then Some(run.end.location) else None)
        && activeDownloads == old(activeDownloads) - AttemptIdSet(script, attempts)
        && registry.processes == Remaining(old(registry.processes), script, attempts)
        && registry.published == old(registry.published) + AttemptsTrace(old(registry.processes), fileName, script, attempts)
    {
      registry.SetObserver();
      var downloadableLink := ConvertToDownloadableLink(parsed, lookup);
      if downloadableLink.None? {
        return None, 0, [];
      }
      r, attempts, delays := DownloadFileWithRetry(fileName, script);
    }
  }

  /** Every attempt failing: three attempts, nil, delays of 2 s then 4 s. */
  lemma AllAttemptsFailGiveNil(script: nat -> AttemptScript)
    requires forall k: nat :: k < MaxAttempts ==> script(k).completion.Err?
    ensures var run := Retry(Outcomes(script), NoSleepError);
      run.end.Exhausted? && run.attempts == 3 && run.delays == [2, 4]
  {
    AllFailuresExhaust(Outcomes(script), NoSleepError);
  }

  /** Attempt k (from 0) the first to succeed: its location, after k + 1 attempts. */
  lemma FirstSuccessReturned(script: nat -> AttemptScript, k: nat)
    requires k < MaxAttempts && script(k).completion.Ok?
    requires forall j: nat :: j < k ==> script(j).completion.Err?
    ensures var run := Retry(Outcomes(script), NoSleepError);
      run.end == Returned(script(k).completion.value) && run.attempts == k + 1 && run.delays == Backoffs(k)
  {
    FirstSuccessEnds(Outcomes(script), NoSleepError, k);
  }
}
