/** `YoutubeDownloader` of the domain layer: validate a watch link, resolve it to an
    audio stream, download it with up to three attempts (each attempt saving the file
    as `<fileName>.m4a` in the documents directory), then save a `DownloadedAudio`
    record for it. */
module DomainDownloader {
  import opened Wrappers
  import opened Errors
  import opened Links
  import opened DownloadingProcesses
  import opened Registry
  import opened RetryPolicy
  import opened Attempts
  import opened Files
  import opened DownloadedAudios
  import opened AudioStore

  /** The `URLError` codes treated as a transient network failure. */
  predicate IsTransient(code: UrlErrorCode) {
    code == NetworkConnectionLost || code == NotConnectedToInternet || code == TimedOut
  }

  /** The failure branch of `downloadFile`'s completion: a transient `URLError` becomes
      `networkError` wrapping it; any other error is passed on unchanged. */
  function Classify(e: Error): (r: Error)
    ensures e.Url? && IsTransient(e.code) ==> r == Downloader(NetworkError(e))
    ensures !(e.Url? && IsTransient(e.code)) ==> r == e
    ensures !(r.Url? && IsTransient(r.code))
  {
    if e.Url? && IsTransient(e.code) then Downloader(NetworkError(e)) else e
  }

  /** Classifying an already classified error changes nothing. */
  lemma ClassifyIdempotent(e: Error)
    ensures Classify(Classify(e)) == Classify(e)
  {
  }

  /** `getDownloadableURL(from:)`: every error of the lookup, including
      `streamNotFound`, surfaces wrapped as `decodingError`. */
  function DownloadableURL(lookup: StreamLookup): (r: Result<string, Error>)
    ensures r.Ok? <==> ConvertedLink(lookup).Ok?
    ensures r.Ok? ==> r.value == ConvertedLink(lookup).value
    ensures r.Err? ==> r.error == Downloader(DecodingError(ConvertedLink(lookup).error))
    ensures lookup == BestAudioStream(None) ==> r == Err(Downloader(DecodingError(Downloader(StreamNotFound))))
  {
    match ConvertedLink(lookup)
    case Ok(u) => Ok(u)
    case Err(e) => Err(Downloader(DecodingError(e)))
  }

  /** What `downloadFileWithRetry` returns or throws for each way the loop ends. */
  function RetryResult(end: RetryEnd): Result<string, Error> {
    match end
    case Returned(location) => Ok(location)
    case Exhausted(e) => Err(Downloader(NetworkError(e)))
    case SleepInterrupted(e) => Err(e)
  }

  /** The attempts as they ended, as the retry loop sees them. */
  function Lift(observed: seq<Attempt>): nat -> Attempt {
    (k: nat) => if k < |observed| then observed[k] else Failed(Cancellation)
  }

  /** Every attempt but the last failed, and no sleep after them threw. */
  predicate RetriedAll(observed: seq<Attempt>, sleep: nat -> Option<Error>, n: nat)
    requires n <= |observed|
  {
    forall j :: 0 <= j < n ==> observed[j].Failed? && sleep(j + 1).None?
  }

  /** `RetriedAll` over the observed attempts is `RetriedThrough` over their lifting. */
  lemma {:induction false} ObservedThrough(observed: seq<Attempt>, sleep: nat -> Option<Error>, n: nat)
    requires n <= |observed| && RetriedAll(observed, sleep, n)
    ensures RetriedThrough(Lift(observed), sleep, n)
  {
    if n > 0 {
      assert RetriedAll(observed, sleep, n - 1);
      ObservedThrough(observed, sleep, n - 1);
      assert observed[n - 1].Failed? && sleep(n).None?;
      assert Lift(observed)(n - 1) == observed[n - 1];
    }
  }

  lemma ObservedBridge(observed: seq<Attempt>, sleep: nat -> Option<Error>, n: nat)
    requires n <= |observed| && RetriedAll(observed, sleep, n)
    ensures forall j: nat :: j < n ==> Lift(observed)(j).Failed? && sleep(j + 1).None?
  {
    ObservedThrough(observed, sleep, n);
    RetriedThroughAll(Lift(observed), sleep, n);
    assert RetriedThrough(Lift(observed), sleep, n);
    assert forall j: nat :: j < n ==> Lift(observed)(j).Failed? && sleep(j + 1).None?;
  }

  /** The loop's run when the last observed attempt succeeded. */
  lemma ObservedSuccess(observed: seq<Attempt>, sleep: nat -> Option<Error>)
    requires 1 <= |observed| <= MaxAttempts && observed[|observed| - 1].Succeeded?
    requires RetriedAll(observed, sleep, |observed| - 1)
    ensures Retry(Lift(observed), sleep)
      == RetryRun(Returned(observed[|observed| - 1].location), |observed|, Backoffs(|observed| - 1))
  {
    var k := |observed| - 1;
    ObservedBridge(observed, sleep, k);
    assert Lift(observed)(k) == observed[k];
    FirstSuccessEnds(Lift(observed), sleep, k);
  }

  /** The loop's run when the sleep after the last observed failure threw. */
  lemma ObservedSleepError(observed: seq<Attempt>, sleep: nat -> Option<Error>)
    requires 1 <= |observed| < MaxAttempts && observed[|observed| - 1].Failed?
    requires sleep(|observed|).Some?
    requires RetriedAll(observed, sleep, |observed| - 1)
    ensures Retry(Lift(observed), sleep)
      == RetryRun(SleepInterrupted(sleep(|observed|).value), |observed|, Backoffs(|observed|))
  {
    var k := |observed| - 1;
    ObservedBridge(observed, sleep, k);
    assert Lift(observed)(k) == observed[k];
    SleepErrorEnds(Lift(observed), sleep, k);
  }

  /** The loop's run when all three observed attempts failed. */
  lemma ObservedExhausted(observed: seq<Attempt>, sleep: nat -> Option<Error>)
    requires |observed| == MaxAttempts && observed[2].Failed?
    requires RetriedAll(observed, sleep, 2)
    ensures Retry(Lift(observed), sleep) == RetryRun(Exhausted(observed[2].error), 3, [2, 4])
  {
    ObservedBridge(observed, sleep, 2);
    assert observed[0].Failed? && observed[1].Failed?;
    assert Lift(observed)(2) == observed[2];
    AllFailuresExhaust(Lift(observed), sleep);
  }

  /** A failed attempt not followed by a throwing sleep extends `RetriedAll`. */
  lemma RetriedAllStep(observed: seq<Attempt>, sleep: nat -> Option<Error>, a: Attempt)
    requires RetriedAll(observed, sleep, |observed|) && a.Failed? && sleep(|observed| + 1).None?
    ensures RetriedAll(observed + [a], sleep, |observed| + 1)
  {
    var observed' := observed + [a];
    forall j | 0 <= j < |observed'| ensures observed'[j].Failed? && sleep(j + 1).None? {
      if j < |observed| {
        assert observed'[j] == observed[j];
      }
    }
  }

  /** `RetriedAll` of a prefix. */
  lemma RetriedAllPrefix(observed: seq<Attempt>, sleep: nat -> Option<Error>, a: Attempt)
    requires RetriedAll(observed, sleep, |observed|)
    ensures RetriedAll(observed + [a], sleep, |observed|)
  {
    var observed' := observed + [a];
    forall j | 0 <= j < |observed| ensures observed'[j].Failed? && sleep(j + 1).None? {
      assert observed[j].Failed? && sleep(j + 1).None?;
      assert observed'[j] == observed[j];
    }
  }

  /** The retry loop's own variables after the attempts `observed`: `retryCount`
      failures so far, none of them followed by a throwing sleep, the delays asked
      for, and the last attempt's error. */
  predicate Looping(observed: seq<Attempt>, sleep: nat -> Option<Error>, retryCount: nat,
                    delays: seq<nat>, lastError: Option<Error>)
  {
    && retryCount <= MaxAttempts && |observed| == retryCount
    && (retryCount < MaxAttempts ==> RetriedAll(observed, sleep, retryCount))
    && (retryCount == MaxAttempts ==> RetriedAll(observed, sleep, MaxAttempts - 1) && observed[MaxAttempts - 1].Failed?)
    && delays == Backoffs(if retryCount < MaxAttempts then retryCount else MaxAttempts - 1)
    && (retryCount > 0 ==> lastError == Some(observed[retryCount - 1].error))
  }

  /** A further attempt that succeeds ends the loop returning its location. */
  lemma LoopSucceeds(observed: seq<Attempt>, sleep: nat -> Option<Error>, retryCount: nat,
                     delays: seq<nat>, lastError: Option<Error>, observed': seq<Attempt>)
    requires Looping(observed, sleep, retryCount, delays, lastError) && retryCount < MaxAttempts
    requires |observed'| == retryCount + 1 && observed' == observed + [observed'[retryCount]]
    requires observed'[retryCount].Succeeded?
    ensures var run := Retry(Lift(observed'), sleep);
      run.attempts == |observed'| && run.delays == delays && RetryResult(run.end) == Ok(observed'[retryCount].location)
  {
    RetriedAllPrefix(observed, sleep, observed'[retryCount]);
    ObservedSuccess(observed', sleep);
  }

  /** A further attempt that fails: the loop goes on with one more delay, or ends with
      the error the sleep threw, or has used up its attempts. */
  lemma LoopFails(observed: seq<Attempt>, sleep: nat -> Option<Error>, retryCount: nat,
                  delays: seq<nat>, lastError: Option<Error>, observed': seq<Attempt>)
    requires Looping(observed, sleep, retryCount, delays, lastError) && retryCount < MaxAttempts
    requires |observed'| == retryCount + 1 && observed' == observed + [observed'[retryCount]]
    requires observed'[retryCount].Failed?
    ensures var e := observed'[retryCount].error;
      && (retryCount + 1 < MaxAttempts && sleep(retryCount + 1).None? ==>
            Looping(observed', sleep, retryCount + 1, delays + [Pow2(retryCount + 1)], Some(e)))
      && (retryCount + 1 < MaxAttempts && sleep(retryCount + 1).Some? ==>
            var run := Retry(Lift(observed'), sleep);
            run.attempts == |observed'| && run.delays == delays + [Pow2(retryCount + 1)]
            && RetryResult(run.end) == Err(sleep(retryCount + 1).value))
      && (retryCount + 1 == MaxAttempts ==> Looping(observed', sleep, retryCount + 1, delays, Some(e)))
  {
    var a := observed'[retryCount];
    if retryCount + 1 < MaxAttempts {
      if sleep(retryCount + 1).None? {
        RetriedAllStep(observed, sleep, a);
      } else {
        RetriedAllPrefix(observed, sleep, a);
        ObservedSleepError(observed', sleep);
      }
    } else {
      RetriedAllPrefix(observed, sleep, a);
    }
  }

  /** Three failed attempts end the loop with the last one's error. */
  lemma LoopExhausted(observed: seq<Attempt>, sleep: nat -> Option<Error>,
                      delays: seq<nat>, lastError: Option<Error>)
    requires Looping(observed, sleep, MaxAttempts, delays, lastError)
    ensures lastError.Some?
    ensures var run := Retry(Lift(observed), sleep);
      run.attempts == MaxAttempts && run.delays == delays
      && RetryResult(run.end) == Err(Downloader(NetworkError(lastError.value)))
  {
    ObservedExhausted(observed, sleep);
    BackoffsValues();
  }

  class YoutubeDownloader {
    /** `currentProcesses` and `currentDownloadingProcesses` */
    const registry: ProcessRegistry
    /** `FileManager.default` */
    const fs: FileSystem
    /** `swiftDataManager` */
    const store: AudioRepository
    /** The keys of `activeDownloads`. */
    var activeDownloads: set<string>

    constructor(registry0: ProcessRegistry, fs0: FileSystem, store0: AudioRepository)
      ensures registry == registry0 && fs == fs0 && store == store0 && activeDownloads == {}
    {
      registry := registry0;
      fs := fs0;
      store := store0;
      activeDownloads := {};
    }

    /** Whether `saveFile` succeeds on a store holding `files`: the documents directory
        can be created, an existing file at `path` can be removed, and `path` can be
        written. */
    predicate CanSave(files: map<string, Bytes>, path: string) {
      fs.canCreateDirectories && (path in files ==> path !in fs.unremovable) && path !in fs.unwritable
    }

    /** The error a failed `saveFile` rethrows, wrapped as `networkError`: the documents
        directory's when it cannot be created, otherwise the file's. */
    function SaveError(path: string): Error {
      Downloader(NetworkError(FileError(if fs.canCreateDirectories then path else DocumentsDir)))
    }

    /** The files a failed `saveFile` leaves behind: the old file at `path` is gone when
        the directory was created and that file could be removed, since only the write
        after the removal failed. */
    function AfterFailedSave(files: map<string, Bytes>, path: string): (r: map<string, Bytes>)
      ensures AgreeExcept(r, files, path)
      ensures path in r ==> path in files && r[path] == files[path]
    {
      if fs.canCreateDirectories && path in files && path !in fs.unremovable then files - {path} else files
    }

    /** `saveFile(with:fileName:)`: `<fileName>.m4a` in the documents directory then holds
        exactly `data`, replacing what was there, and nothing else changed; every
        failure is rethrown as `networkError`. */
    method SaveFile(data: Bytes, fileName: string) returns (r: Result<string, Error>)
      modifies fs
      ensures var path := AudioPath(DocumentsDir, fileName);
        && (r.Ok? <==> CanSave(old(fs.files), path))
        && (r.Ok? ==> r.value == path && fs.files == old(fs.files)[path := data])
        && (r.Err? ==> r.error == SaveError(path) && fs.files == AfterFailedSave(old(fs.files), path))
        && AgreeExcept(fs.files, old(fs.files), path)
      ensures fs.directories == old(fs.directories) + (if fs.canCreateDirectories then {DocumentsDir} else {})
    {
      var made := fs.CreateDirectory(DocumentsDir);
      if made.Fail? {
        return Err(Downloader(NetworkError(made.error)));
      }
      var localURL := AudioPath(DocumentsDir, fileName);
      var written := fs.Overwrite(localURL, data);
      if written.Fail? {
        return Err(Downloader(NetworkError(written.error)));
      }
      return Ok(localURL);
    }

    /** What one attempt returns and leaves in the store, from its first completion and
        the files `files0` it found: a failed download is classified and touches no
        file; a temporary file that cannot be read is that read's error; otherwise the
        temporary file's bytes are saved as `<fileName>.m4a`, or the save fails. */
    function AttemptOutcome(fileName: string, completion: Result<string, Error>, files0: map<string, Bytes>)
      : (o: (Result<string, Error>, map<string, Bytes>))
      ensures var path := AudioPath(DocumentsDir, fileName);
        && AgreeExcept(o.1, files0, path)
        && (o.0.Ok? <==> completion.Ok? && completion.value in files0 && CanSave(files0, path))
        && (o.0.Ok? ==> o.0.value == path && path in o.1 && o.1[path] == files0[completion.value])
    {
      var path := AudioPath(DocumentsDir, fileName);
      match completion
      case Err(e) => (Err(Classify(e)), files0)
      case Ok(location) =>
        if location !in files0 then (Err(FileError(location)), files0)
        else if CanSave(files0, path) then (Ok(path), files0[path := files0[location]])
        else (Err(SaveError(path)), AfterFailedSave(files0, path))
    }

    /** An attempt whose first completion was `completion` returned `r` and took the
        files from `files0` to `files`, as `AttemptOutcome` says, and at most created
        the documents directory. */
    ghost predicate Settled(fileName: string, completion: Result<string, Error>, r: Result<string, Error>,
                            files0: map<string, Bytes>, dirs0: set<string>,
                            files: map<string, Bytes>, dirs: set<string>)
    {
      && (r, files) == AttemptOutcome(fileName, completion, files0)
      && dirs0 <= dirs <= dirs0 + {DocumentsDir}
    }

    /** The completion handler's work once `hasResumed` has been set. */
    method Complete(fileName: string, completion: Result<string, Error>, current: DownloadingProcess)
      returns (r: Result<string, Error>)
      modifies this, registry, fs
      ensures Settled(fileName, completion, r, old(fs.files), old(fs.directories), fs.files, fs.directories)
      ensures activeDownloads == old(activeDownloads) - {current.id}
      ensures registry.processes == Removed(old(registry.processes), current.id)
      ensures registry.published == old(registry.published) + Publication(registry.observing, registry.processes)
      ensures registry.observing == old(registry.observing)
    {
      activeDownloads := activeDownloads - {current.id};
      match completion {
        case Ok(fileURL) =>
          var data := fs.Read(fileURL);
          if data.Err? {
            registry.Remove(current);
            r := Err(data.error);
          } else {
            var savedURL := SaveFile(data.value, fileName);
            registry.Remove(current);
            r := savedURL;
          }
        case Err(error) =>
          registry.Remove(current);
          r := Err(Classify(error));
      }
    }

    /** The completion handler called once per delivered completion: `hasResumed` lets
        only the first one take effect. */
    method DeliverCompletions(fileName: string, completions: seq<Result<string, Error>>, current: DownloadingProcess)
      returns (r: Result<string, Error>)
      requires |completions| > 0
      modifies this, registry, fs
      ensures Settled(fileName, completions[0], r, old(fs.files), old(fs.directories), fs.files, fs.directories)
      ensures activeDownloads == old(activeDownloads) - {current.id}
      ensures registry.processes == Removed(old(registry.processes), current.id)
      ensures registry.published == old(registry.published) + Publication(registry.observing, registry.processes)
      ensures registry.observing == old(registry.observing)
    {
      var hasResumed := false;
      r := Err(Cancellation);
      var i := 0;
      while i < |completions|
        invariant 0 <= i <= |completions|
        invariant hasResumed <==> i > 0
        invariant registry.observing == old(registry.observing)
        invariant i == 0 ==> activeDownloads == old(activeDownloads) && fs.files == old(fs.files)
        invariant i == 0 ==> fs.directories == old(fs.directories)
        invariant i == 0 ==> registry.processes == old(registry.processes) && registry.published == old(registry.published)
        invariant i > 0 ==> Settled(fileName, completions[0], r, old(fs.files), old(fs.directories), fs.files, fs.directories)
        invariant i > 0 ==> activeDownloads == old(activeDownloads) - {current.id}
        invariant i > 0 ==> registry.processes == Removed(old(registry.processes), current.id)
        invariant i > 0 ==> registry.published == old(registry.published) + Publication(registry.observing, registry.processes)
      {
        if !hasResumed {
          hasResumed := true;
          r := Complete(fileName, completions[i], current);
        }
        i := i + 1;
      }
    }

    /** `downloadFile(fileName:from:)`, one attempt: registered under its process id,
        a row per progress callback, and only the first completion takes effect. */
    method DownloadFile(fileName: string, script: AttemptScript) returns (r: Result<string, Error>)
      modifies this, registry, fs
      ensures Settled(fileName, script.completion, r, old(fs.files), old(fs.directories), fs.files, fs.directories)
      ensures activeDownloads == old(activeDownloads) - {script.processId}
      ensures registry.processes == Removed(old(registry.processes), script.processId)
      ensures var records := ProgressRecords(script.processId, fileName, script.progress);
        registry.published == old(registry.published)
          + (if registry.observing then UpsertTrace(old(registry.processes), records) + [registry.processes] else [])
      ensures registry.observing == old(registry.observing)
    {
      var currentProcess := DownloadingProcess(script.processId, fileName, 0.0, 0.0, 0.0);
      activeDownloads := activeDownloads + {currentProcess.id};
      var records := ProgressRecords(script.processId, fileName, script.progress);
      registry.UpdateEach(records);
      if |records| > 0 {
        currentProcess := records[|records| - 1];
      }
      r := DeliverCompletions(fileName, [script.completion] + script.lateCompletions, currentProcess);
      UpsertsThenRemove(old(registry.processes), records, script.processId);
    }

    /** What the retry loop knows after the attempts `observed`: `history[k]` holds the
        files attempt `k` found and `history[k + 1]` those it left, each attempt ended
        and changed the files exactly as `AttemptOutcome` says, no file but
        `<fileName>.m4a` differs from those at the start, and at most the documents
        directory was added to `dirs0`. */
    ghost predicate Tracked(fileName: string, script: nat -> AttemptScript, observed: seq<Attempt>,
                            history: seq<map<string, Bytes>>, dirs0: set<string>, dirs: set<string>)
    {
      && |history| == |observed| + 1
      && (forall k :: 0 <= k < |observed| ==>
            (ResultOf(observed[k]), history[k + 1]) == AttemptOutcome(fileName, script(k).completion, history[k]))
      && (forall k :: 0 <= k < |history| ==> AgreeExcept(history[k], history[0], AudioPath(DocumentsDir, fileName)))
      && dirs0 <= dirs <= dirs0 + {DocumentsDir}
    }

    /** An attempt whose completion was `completion` returned `location` after saving:
        the completion was a temporary file, and `<fileName>.m4a`, at `location`, holds
        its bytes as they were in `files0`. */
    ghost predicate SavedDownload(fileName: string, completion: Result<string, Error>, location: string,
                                  files0: map<string, Bytes>, files: map<string, Bytes>)
    {
      var path := AudioPath(DocumentsDir, fileName);
      && completion.Ok? && location == path && path in files
      && (completion.value != path ==> completion.value in files0 && files[path] == files0[completion.value])
    }

    /** One more settled attempt, from the files the last one left, extends `Tracked`;
        a successful one leaves the downloaded bytes at `<fileName>.m4a`. */
    lemma TrackedStep(fileName: string, script: nat -> AttemptScript, observed: seq<Attempt>,
                      history: seq<map<string, Bytes>>, dirs0: set<string>, dirsK: set<string>,
                      result: Result<string, Error>, files: map<string, Bytes>, dirs: set<string>)
      requires Tracked(fileName, script, observed, history, dirs0, dirsK)
      requires Settled(fileName, script(|observed|).completion, result, history[|observed|], dirsK, files, dirs)
      ensures Tracked(fileName, script, observed + [AttemptOf(result)], history + [files], dirs0, dirs)
      ensures result.Ok? ==> SavedDownload(fileName, script(|observed|).completion, result.value, history[0], files)
    {
      var path := AudioPath(DocumentsDir, fileName);
      var n := |observed|;
      AgreeExceptTrans(files, history[n], history[0], path);
      var observed', history' := observed + [AttemptOf(result)], history + [files];
      forall k | 0 <= k < |observed'|
        ensures (ResultOf(observed'[k]), history'[k + 1]) == AttemptOutcome(fileName, script(k).completion, history'[k])
      {
        if k < n {
          assert observed'[k] == observed[k] && history'[k] == history[k] && history'[k + 1] == history[k + 1];
        } else {
          AttemptRoundTrip(result, observed'[k]);
          assert history'[k] == history[n] && history'[k + 1] == files;
        }
      }
      forall k | 0 <= k < |history'| ensures AgreeExcept(history'[k], history'[0], path) {
        if k < |history| {
          assert history'[k] == history[k];
        }
      }
      if result.Ok? {
        var location := script(n).completion.value;
        if location != path {
          assert AgreeExcept(history[n], history[0], path);
        }
      }
    }

    /** How attempt `k` of a tracked run ended, read off its completion and the files
        the run started from: a failed download is classified; only a temporary file
        can succeed, always at `<fileName>.m4a`; a temporary file elsewhere that was
        not there is that read's error, and one that was there is saved whenever the
        file system lets `<fileName>.m4a` be created, replaced and written. */
    lemma TrackedAttempt(fileName: string, script: nat -> AttemptScript, observed: seq<Attempt>,
                         history: seq<map<string, Bytes>>, dirs0: set<string>, dirs: set<string>, k: nat)
      requires Tracked(fileName, script, observed, history, dirs0, dirs) && k < |observed|
      ensures var path, c := AudioPath(DocumentsDir, fileName), script(k).completion;
        && (c.Err? ==> observed[k] == Failed(Classify(c.error)))
        && (observed[k].Succeeded? ==> c.Ok? && observed[k].location == path)
        && (c.Ok? && c.value != path && c.value !in history[0] ==> observed[k] == Failed(FileError(c.value)))
        && (c.Ok? && c.value != path && c.value in history[0] && CanResave(path) ==> observed[k] == Succeeded(path))
        && (c.Ok? && c.value != path && c.value in history[0] && observed[k].Failed? ==>
              observed[k].error.Downloader? && observed[k].error.reason.NetworkError?)
    {
      var path := AudioPath(DocumentsDir, fileName);
      var o := AttemptOutcome(fileName, script(k).completion, history[k]);
      assert (ResultOf(observed[k]), history[k + 1]) == o;
      assert AgreeExcept(history[k], history[0], path);
      AttemptRoundTrip(o.0, observed[k]);
    }

    /** Attempt `n` of the retry loop, after the attempts `observed`. */
    method NextAttempt(fileName: string, script: nat -> AttemptScript, n: nat,
                       ghost s0: Processes, ghost active0: set<string>, ghost published0: seq<Processes>,
                       ghost observed: seq<Attempt>, ghost history: seq<map<string, Bytes>>, ghost dirs0: set<string>)
      returns (result: Result<string, Error>, ghost observed': seq<Attempt>, ghost history': seq<map<string, Bytes>>)
      requires n == |observed|
      requires AfterAttempts(registry, activeDownloads, s0, active0, published0, fileName, script, n)
      requires Tracked(fileName, script, observed, history, dirs0, fs.directories)
      requires history[n] == fs.files
      modifies this, registry, fs
      ensures AfterAttempts(registry, activeDownloads, s0, active0, published0, fileName, script, n + 1)
      ensures registry.observing == old(registry.observing)
      ensures observed' == observed + [AttemptOf(result)] && history' == history + [fs.files]
      ensures Tracked(fileName, script, observed', history', dirs0, fs.directories)
      ensures result.Ok? ==> SavedDownload(fileName, script(n).completion, result.value, history[0], fs.files)
    {
      ghost var published := registry.published;
      ghost var dirsBefore := fs.directories;
      result := DownloadFile(fileName, script(n));
      AttemptAdvances(s0, published0, fileName, script, n, registry.observing,
                      published, registry.processes, registry.published);
      TrackedStep(fileName, script, observed, history, dirs0, dirsBefore, result, fs.files, fs.directories);
      observed', history' := observed + [AttemptOf(result)], history + [fs.files];
    }

    /** One round of the retry loop: attempt `retryCount`, and on a failure that will
        be retried the sleep after it. `finished` says the loop is over, with `r` its
        result after `attempts` attempts; otherwise the loop goes on with the new
        counter, delays and last error. */
    method RetryRound(fileName: string, script: nat -> AttemptScript, sleep: nat -> Option<Error>,
                      retryCount: nat, delays: seq<nat>, lastError: Option<Error>,
                      ghost s0: Processes, ghost active0: set<string>, ghost published0: seq<Processes>,
                      ghost observed: seq<Attempt>, ghost history: seq<map<string, Bytes>>, ghost dirs0: set<string>)
      returns (finished: bool, r: Result<string, Error>, attempts: nat, delays': seq<nat>,
               lastError': Option<Error>, ghost observed': seq<Attempt>, ghost history': seq<map<string, Bytes>>)
      requires retryCount < MaxAttempts
      requires Looping(observed, sleep, retryCount, delays, lastError)
      requires Tracked(fileName, script, observed, history, dirs0, fs.directories)
      requires history[retryCount] == fs.files
      requires AfterAttempts(registry, activeDownloads, s0, active0, published0, fileName, script, retryCount)
      modifies this, registry, fs
      ensures |observed'| == retryCount + 1 && history' == history + [fs.files]
      ensures Tracked(fileName, script, observed', history', dirs0, fs.directories)
      ensures AfterAttempts(registry, activeDownloads, s0, active0, published0, fileName, script, retryCount + 1)
      ensures registry.observing == old(registry.observing)
      ensures !finished ==> Looping(observed', sleep, retryCount + 1, delays', lastError')
      ensures finished ==>
        && attempts == |observed'|
        && var run := Retry(Lift(observed'), sleep);
           attempts == run.attempts && delays' == run.delays && r == RetryResult(run.end)
      ensures finished && r.Ok? ==> SavedDownload(fileName, script(retryCount).completion, r.value, history[0], fs.files)
    {
      var result;
      result, observed', history' := NextAttempt(fileName, script, retryCount, s0, active0, published0, observed, history, dirs0);
      attempts := retryCount + 1;
      if result.Ok? {
        LoopSucceeds(observed, sleep, retryCount, delays, lastError, observed');
        return true, result, attempts, delays, lastError, observed', history';
      }
      LoopFails(observed, sleep, retryCount, delays, lastError, observed');
      lastError' := Some(result.error);
      delays' := delays;
      finished, r := false, result;
      if retryCount + 1 < MaxAttempts {
        delays' := delays + [Pow2(retryCount + 1)];
        var slept := sleep(retryCount + 1);
        if slept.Some? {
          finished, r := true, Err(slept.value);
        }
      }
    }

    /** A first attempt whose temporary file is there and can be saved ends the loop at
        once, returning `<fileName>.m4a` with that file's bytes in it. */
    lemma FirstAttemptSaves(fileName: string, script: nat -> AttemptScript, sleep: nat -> Option<Error>,
                            observed: seq<Attempt>, history: seq<map<string, Bytes>>, dirs0: set<string>, dirs: set<string>)
      requires Tracked(fileName, script, observed, history, dirs0, dirs) && 1 <= |observed|
      ensures var path, c := AudioPath(DocumentsDir, fileName), script(0).completion;
        c.Ok? && c.value in history[0] && CanSave(history[0], path) ==>
          && observed[0] == Succeeded(path)
          && Retry(Lift(observed), sleep) == RetryRun(Returned(path), 1, [])
          && history[1] == history[0][path := history[0][c.value]]
    {
      var path, c := AudioPath(DocumentsDir, fileName), script(0).completion;
      var o := AttemptOutcome(fileName, c, history[0]);
      assert (ResultOf(observed[0]), history[1]) == o;
      AttemptRoundTrip(o.0, observed[0]);
      assert Lift(observed)(0) == observed[0];
    }

    /** The loop of `downloadFileWithRetry`, round after round until one finishes or
        three attempts have failed. */
    method RetryLoop(fileName: string, script: nat -> AttemptScript, sleep: nat -> Option<Error>)
      returns (r: Result<string, Error>, attempts: nat, delays: seq<nat>,
               ghost observed: seq<Attempt>, ghost history: seq<map<string, Bytes>>)
      modifies this, registry, fs
      ensures |observed| == attempts
      ensures var run := Retry(Lift(observed), sleep);
        attempts == run.attempts && delays == run.delays && r == RetryResult(run.end)
      ensures Tracked(fileName, script, observed, history, old(fs.directories), fs.directories)
      ensures history[0] == old(fs.files) && history[attempts] == fs.files
      ensures AfterAttempts(registry, activeDownloads, old(registry.processes), old(activeDownloads),
                            old(registry.published), fileName, script, attempts)
      ensures registry.observing == old(registry.observing)
      ensures r.Ok? ==> 1 <= attempts && SavedDownload(fileName, script(attempts - 1).completion, r.value, old(fs.files), fs.files)
    {
      ghost var s0, active0, published0 := registry.processes, activeDownloads, registry.published;
      ghost var dirs0 := fs.directories;
      var retryCount := 0;
      var lastError: Option<Error> := None;
      delays := [];
      observed, history := [], [fs.files];
      while retryCount < MaxAttempts
        invariant Looping(observed, sleep, retryCount, delays, lastError)
        invariant Tracked(fileName, script, observed, history, dirs0, fs.directories)
        invariant history[0] == old(fs.files) && history[retryCount] == fs.files
        invariant AfterAttempts(registry, activeDownloads, s0, active0, published0, fileName, script, retryCount)
        invariant registry.observing == old(registry.observing)
      {
        var finished;
        finished, r, attempts, delays, lastError, observed, history :=
          RetryRound(fileName, script, sleep, retryCount, delays, lastError, s0, active0, published0, observed, history, dirs0);
        if finished {
          return;
        }
        retryCount := retryCount + 1;
      }
      LoopExhausted(observed, sleep, delays, lastError);
      var cause := if lastError.Some? then lastError.value else Foreign("Download failed after 3 retries");
      r := Err(Downloader(NetworkError(cause)));
      attempts := MaxAttempts;
    }

    /** `downloadFileWithRetry(fileName:from:)`: attempts until one succeeds or three
        have failed, sleeping 2^retryCount seconds after each failure that will be
        retried. `sleep(n)` is what the sleep after the n-th failure throws, and that
        error escapes; after three failures `networkError` wraps the last attempt's
        error. `observed` is how each attempt ended and `history` the files before and
        after each; a first attempt that can save ends the loop with its file. */
    method DownloadFileWithRetry(fileName: string, script: nat -> AttemptScript, sleep: nat -> Option<Error>)
      returns (r: Result<string, Error>, attempts: nat, delays: seq<nat>,
               ghost observed: seq<Attempt>, ghost history: seq<map<string, Bytes>>)
      modifies this, registry, fs
      ensures |observed| == attempts
      ensures var run := Retry(Lift(observed), sleep);
        attempts == run.attempts && delays == run.delays && r == RetryResult(run.end)
      ensures Tracked(fileName, script, observed, history, old(fs.directories), fs.directories)
      ensures history[0] == old(fs.files) && history[attempts] == fs.files
      ensures AfterAttempts(registry, activeDownloads, old(registry.processes), old(activeDownloads),
                            old(registry.published), fileName, script, attempts)
      ensures registry.observing == old(registry.observing)
      ensures r.Ok? ==> 1 <= attempts && SavedDownload(fileName, script(attempts - 1).completion, r.value, old(fs.files), fs.files)
      ensures var path, c := AudioPath(DocumentsDir, fileName), script(0).completion;
        c.Ok? && c.value in old(fs.files) && CanSave(old(fs.files), path) ==>
          attempts == 1 && r == Ok(path) && fs.files == old(fs.files)[path := old(fs.files)[c.value]]
    {
      r, attempts, delays, observed, history := RetryLoop(fileName, script, sleep);
      FirstAttemptSaves(fileName, script, sleep, observed, history, old(fs.directories), fs.directories);
    }

    /** Whether the save after the download succeeds once the attempt has put the file
        at `path`: that file must be removable and `path` writable again. */
    predicate CanResave(path: string) {
      fs.canCreateDirectories && path !in fs.unremovable && path !in fs.unwritable
    }

    /** How the steps after a download fail, from the files `files0` the download left:
        a save that cannot be repeated fails as `SaveError`, leaving `AfterFailedSave`;
        otherwise the duration's own error, then the record store's. */
    predicate PersistFailure(r: Outcome<Error>, files: map<string, Bytes>, files0: map<string, Bytes>,
                             path: string, duration: Result<real, Error>)
    {
      && (!CanResave(path) ==> r == Fail(SaveError(path)) && files == AfterFailedSave(files0, path))
      && (CanResave(path) && duration.Err? ==> r == Fail(duration.error))
      && (CanResave(path) && duration.Ok? && store.rejectsSaves ==> r == Fail(Foreign("ModelContext.save")))
    }

    /** The tail of `downloadAudioAndSave` once `location` has been downloaded: read it,
        save it again under `fileName`, take the duration, save the record. */
    method Persist(location: string, fileName: string, urlString: string,
                   duration: Result<real, Error>, recordId: string, now: int)
      returns (r: Outcome<Error>)
      requires location == AudioPath(DocumentsDir, fileName) && location in fs.files
      modifies fs, store
      ensures r.Pass? <==> CanResave(location) && duration.Ok? && !store.rejectsSaves
      ensures CanResave(location) ==> fs.files == old(fs.files)
      ensures !CanResave(location) ==> r == Fail(SaveError(location)) && fs.files == AfterFailedSave(old(fs.files), location)
      ensures CanResave(location) && duration.Err? ==> r == Fail(duration.error)
      ensures CanResave(location) && duration.Ok? && store.rejectsSaves ==> r == Fail(Foreign("ModelContext.save"))
      ensures AgreeExcept(fs.files, old(fs.files), location)
      ensures old(fs.directories) <= fs.directories <= old(fs.directories) + {DocumentsDir}
      ensures r.Pass? ==> store.audios == old(store.audios) + [NewDownloadedAudio(recordId, now, fileName, urlString, duration := duration.value)]
      ensures r.Fail? ==> store.audios == old(store.audios)
    {
      var data := fs.Read(location);
      var localURL := SaveFile(data.value, fileName);
      if localURL.Err? {
        return Fail(localURL.error);
      }
      assert fs.files == old(fs.files);
      if duration.Err? {
        return Fail(duration.error);
      }
      var downloadedAudio := NewDownloadedAudio(recordId, now, fileName, urlString, duration := duration.value);
      r := store.Save(downloadedAudio);
    }

    /** The part of `downloadAudioAndSave` after the guards: the retry loop, then
        `Persist` when it returned a location; the loop's error is rethrown as it is. */
    method DownloadAndPersist(urlString: string, fileName: string, script: nat -> AttemptScript,
                              sleep: nat -> Option<Error>, duration: Result<real, Error>, recordId: string, now: int)
      returns (r: Outcome<Error>, attempts: nat, delays: seq<nat>,
               ghost observed: seq<Attempt>, ghost history: seq<map<string, Bytes>>)
      modifies this, registry, fs, store
      ensures registry.observing == old(registry.observing)
      ensures var run := Retry(Lift(observed), sleep);
        && attempts == run.attempts && delays == run.delays
        && (run.end.Returned? || r == Fail(RetryResult(run.end).error))
        && (r.Pass? <==> run.end.Returned? && CanResave(AudioPath(DocumentsDir, fileName)) && duration.Ok? && !store.rejectsSaves)
      ensures Tracked(fileName, script, observed, history, old(fs.directories), fs.directories)
      ensures history[0] == old(fs.files) && |observed| == attempts
      ensures AgreeExcept(fs.files, old(fs.files), AudioPath(DocumentsDir, fileName))
      ensures var run, path := Retry(Lift(observed), sleep), AudioPath(DocumentsDir, fileName);
        && (!run.end.Returned? || CanResave(path) ==> fs.files == history[attempts])
        && (run.end.Returned? ==> PersistFailure(r, fs.files, history[attempts], path, duration))
      ensures AfterAttempts(registry, activeDownloads, old(registry.processes), old(activeDownloads),
                            old(registry.published), fileName, script, attempts)
      ensures r.Pass? ==>
        && 1 <= attempts
        && SavedDownload(fileName, script(attempts - 1).completion, AudioPath(DocumentsDir, fileName), old(fs.files), fs.files)
        && store.audios == old(store.audios) + [NewDownloadedAudio(recordId, now, fileName, urlString, duration := duration.value)]
      ensures r.Fail? ==> store.audios == old(store.audios)
    {
      var downloadedURL;
      downloadedURL, attempts, delays, observed, history := DownloadFileWithRetry(fileName, script, sleep);
      assert AgreeExcept(history[attempts], history[0], AudioPath(DocumentsDir, fileName));
      if downloadedURL.Err? {
        return Fail(downloadedURL.error), attempts, delays, observed, history;
      }
      ghost var files1 := fs.files;
      r := Persist(downloadedURL.value, fileName, urlString, duration, recordId, now);
      AgreeExceptTrans(fs.files, files1, old(fs.files), downloadedURL.value);
    }

    /** `downloadAudioAndSave(from:fileName:currentDownloadingProcesses:)`. A link that
        fails the guards or cannot be resolved stops everything before any attempt.
        Otherwise the retry loop runs; its error, or any later one, is rethrown as it
        is. After a download the file is read back and saved once more under the same
        name, which, when it succeeds, leaves the store as it was; then the duration is
        asked for, and only then is a record titled `fileName` with that duration saved.
        `duration` is what `AudioManager.getAudioDuration` yields, `recordId` and `now`
        are the record's generated id and creation time. */
    method DownloadAudioAndSave(urlString: string, fileName: string, parsed: Option<Url>, lookup: StreamLookup,
                                script: nat -> AttemptScript, sleep: nat -> Option<Error>,
                                duration: Result<real, Error>, recordId: string, now: int)
      returns (r: Outcome<Error>, attempts: nat, delays: seq<nat>,
               ghost observed: seq<Attempt>, ghost history: seq<map<string, Bytes>>)
      modifies this, registry, fs, store
      ensures registry.observing
      ensures var link, resolved := ValidateLink(urlString, parsed), DownloadableURL(lookup);
        (link.Err? || resolved.Err?) ==>
          && r == Fail(if link.Err? then link.error else resolved.error)
          && attempts == 0 && delays == [] && observed == [] && history == [old(fs.files)]
          && fs.files == old(fs.files) && fs.directories == old(fs.directories) && store.audios == old(store.audios)
          && activeDownloads == old(activeDownloads) && registry.processes == old(registry.processes)
          && registry.published == old(registry.published)
      ensures var run := Retry(Lift(observed), sleep);
        ValidateLink(urlString, parsed).Ok? && DownloadableURL(lookup).Ok? ==>
          && attempts == run.attempts && delays == run.delays
          && (run.end.Returned? || r == Fail(RetryResult(run.end).error))
          && (r.Pass? <==> run.end.Returned? && CanResave(AudioPath(DocumentsDir, fileName)) && duration.Ok? && !store.rejectsSaves)
          && Tracked(fileName, script, observed, history, old(fs.directories), fs.directories)
          && history[0] == old(fs.files) && |observed| == attempts
          && AgreeExcept(fs.files, old(fs.files), AudioPath(DocumentsDir, fileName))
          && (!run.end.Returned? || CanResave(AudioPath(DocumentsDir, fileName)) ==> fs.files == history[attempts])
          && (run.end.Returned? ==> PersistFailure(r, fs.files, history[attempts], AudioPath(DocumentsDir, fileName), duration))
          && AfterAttempts(registry, activeDownloads, old(registry.processes), old(activeDownloads),
                           old(registry.published), fileName, script, attempts)
      ensures r.Pass? ==>
        && 1 <= attempts
        && SavedDownload(fileName, script(attempts - 1).completion, AudioPath(DocumentsDir, fileName), old(fs.files), fs.files)
        && store.audios == old(store.audios) + [NewDownloadedAudio(recordId, now, fileName, urlString, duration := duration.value)]
      ensures r.Fail? ==> store.audios == old(store.audios)
    {
      registry.SetObserver();
      observed, history := [], [fs.files];
      var link := ValidateLink(urlString, parsed);
      if link.Err? {
        return Fail(link.error), 0, [], observed, history;
      }
      var downloadableURL := DownloadableURL(lookup);
      if downloadableURL.Err? {
        return Fail(downloadableURL.error), 0, [], observed, history;
      }
      r, attempts, delays, observed, history := DownloadAndPersist(urlString, fileName, script, sleep, duration, recordId, now);
    }
  }
}
