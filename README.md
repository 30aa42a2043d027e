# Vibe: the download pipeline, the saved-track store and the playback queue

Vibe is an iOS music app. It downloads the audio of YouTube videos, keeps the files in
the app's documents directory with a SwiftData record for each track, and plays them
from a queue. This project models the app's logic and proves what that logic
promises. The model covers these parts:

- **The registry of in-flight downloads** (`currentProcesses`).
  - `updateDownloadingProcess` upserts a `DownloadingProcess` by id: it replaces the
    first match in place, or appends when there is none.
  - `removeDownloadingProcess` removes every row with that id.
  - Both hand the whole list to the observer.
  - The three copies of this pair share one `ProcessRegistry` class, because their code
    is the same. Those copies are in the download use case, the domain downloader and
    the older manager downloader.
- **The download use case** (`YoutubeDownloaderUseCaseImpl`).
  - A link is resolved to a stream.
  - Attempts run at most three times, sleeping 2 s and 4 s between them. Sleep errors
    are ignored.
  - Each attempt gets its own process id, an entry in `activeDownloads`, one registry
    row per progress callback, and a completion handler that acts only once
    (`hasResumed`).
- **The domain downloader** (`Domain/Data/YoutubeDownloader`).
  - The link guards throw `invalidURL`.
  - Every resolver error is wrapped as `decodingError`.
  - The same retry loop runs, but here the sleep's error escapes. After three failures
    the loop throws `networkError` wrapping the last error.
  - A transient `URLError` (connection lost, offline, timed out) becomes
    `networkError`.
  - `saveFile` removes and then writes `<fileName>.m4a` in the documents directory.
  - A record is saved only after the file and the track's duration.
- **The manager downloader** (`Manager/YoutubeDownloader`).
  - It has the same guards and makes one attempt, with no retry.
  - It writes into the music directory.
  - Every escaping error is made a `YoutubeDownloaderError`.
- **`MainTabViewModel.downloadAndSave`**, which copies the downloaded file to
  `<id>.m4a` under a fresh id, then saves a record with that id.
- **`SavedAudioUseCase`**, which lists, saves and deletes records. Deleting removes
  `<title>.m4a` first and the record after.
- **`AudioPlayerUseCaseImpl`**, the queue state machine over `playlist`, `currentIndex`
  (-1 for none) and `isLooping`. `SongListViewModel` adds its tap and delete rules on
  top.
- **Small pure helpers**: `LoopOption.imgName`, `VideoID.getYoutubeURL`,
  `getDummyItems`, `DownloadedAudio.getImageURL` and init defaults,
  `DownloadingProcess.updateProgress` and `dummyData`, and `formatDuration`.

## How the external world comes in

The model takes everything outside the app's own code as a parameter:

- **A download attempt** is an `AttemptScript`. It holds:
  - its fresh process id;
  - the progress reports it delivers;
  - its first completion;
  - any later completions, which `hasResumed` ignores.

  A retry loop is given `script: nat -> AttemptScript`, one script per attempt.
- **The sleep between attempts** is an oracle `sleep: nat -> Option<Error>`.
- **URL parsing** arrives as `parsed: Option<Url>`, with the host already extracted.
- **The YouTubeKit resolver** arrives as a `StreamLookup`.
- **`FileManager`** is a `FileSystem` object: a map from path to bytes, plus the sets
  of paths that cannot be removed or written.
- **The SwiftData context** is an `AudioRepository` holding the records, plus flags for
  whether a save or a delete is rejected.
- **Generated ids, the creation date and the track's duration** are parameters.
- **The audio manager** is a log of the commands it receives.

The retry loop has a reference definition, `RetryPolicy.Retry`. It says how a run ends
(returned, exhausted or interrupted by a sleep), how many attempts it made and which
delays it asked for. Both retry methods are proved equal to it. The use case feeds it
each attempt's completion. The domain downloader feeds it how each attempt ended, and
that is pinned down too: `DomainDownloader.YoutubeDownloader.AttemptOutcome` gives each
attempt's result and file store from its first completion and the files the previous
attempt left.

## Model

| member | source | states |
|---|---|---|
| Registry.FirstIndexOf | Vibe/UseCases/YoutubeDownloaderUseCase.swift:143 | The index found holds the id and no earlier row does; there is none exactly when no row has the id |
| Registry.UpsertReplacesFirstMatch | Vibe/UseCases/YoutubeDownloaderUseCase.swift:142-145 | Upserting a present id keeps the length, puts the record at the first index with that id and leaves every other row as it was |
| Registry.UpsertAppendsNew | Vibe/UseCases/YoutubeDownloaderUseCase.swift:145-147 | Upserting an absent id appends the record after all existing rows |
| Registry.UpsertedSpec | Vibe/UseCases/YoutubeDownloaderUseCase.swift:142-147 | After an upsert the record is in the list, a row is added exactly when the id was new, and every row of another id is still there |
| Registry.Removed | Vibe/UseCases/YoutubeDownloaderUseCase.swift:137-138 | A removal never lengthens the list, and shortens it whenever the id was present |
| Registry.RemovedCounts | Vibe/UseCases/YoutubeDownloaderUseCase.swift:137-138 | Each row of another id is kept as many times as it occurred, and none of the id |
| Registry.UpsertedIsFound | Vibe/UseCases/YoutubeDownloaderUseCase.swift:142-147 | After an upsert the id is present and the first row with it is the new record |
| Registry.FirstIndexIs | Vibe/UseCases/YoutubeDownloaderUseCase.swift:143 | A row holding the id with no earlier match is what the lookup finds |
| Registry.UpsertKeepsIdsUnique | Vibe/UseCases/YoutubeDownloaderUseCase.swift:142-147 | Distinct ids stay distinct through an upsert |
| Registry.UpsertKeepsAtMostOne | Vibe/UseCases/YoutubeDownloaderUseCase.swift:142-147 | An id that had at most one row has exactly one after its upsert |
| Registry.UpsertOnlyTouchesItsId | Vibe/UseCases/YoutubeDownloaderUseCase.swift:142-147 | Rows of other ids are unaffected: removing the id undoes the upsert |
| Registry.RemovedIgnoresSameIdUpdate | Vibe/UseCases/YoutubeDownloaderUseCase.swift:137-149 | Replacing a row of an id does not change what removing that id leaves |
| Registry.RemovedDistributes | Vibe/UseCases/YoutubeDownloaderUseCase.swift:138 | Removal works row by row over a concatenation |
| Registry.RemovedSpec | Vibe/UseCases/YoutubeDownloaderUseCase.swift:137-138 | After removal no row has the id, a row stays exactly when it had another id, and the rows kept are in their old order |
| Registry.RemovedAbsent | Vibe/UseCases/YoutubeDownloaderUseCase.swift:138 | Removing an absent id changes nothing |
| Registry.RemovedKeepsIdsUnique | Vibe/UseCases/YoutubeDownloaderUseCase.swift:138 | Distinct ids stay distinct through a removal |
| Registry.UpsertsThenRemove | Vibe/UseCases/YoutubeDownloaderUseCase.swift:101-125 | An attempt's progress rows followed by its removal leave the list as removing the id from the original |
| Registry.OneRowPerJob | Vibe/UseCases/YoutubeDownloaderUseCase.swift:101-106 | During an attempt its id has exactly one row, holding the latest progress record |
| Registry.AtMostOneThroughUpserts | Vibe/UseCases/YoutubeDownloaderUseCase.swift:101-106 | Upserts of one id never create a second row of it |
| Registry.SubsequenceReflexive | Vibe/UseCases/YoutubeDownloaderUseCase.swift:138 | Every list keeps its own order |
| Registry.SubsequenceTransitive | Vibe/UseCases/YoutubeDownloaderUseCase.swift:138 | Order kept through successive removals is kept overall |
| Registry.UpsertOneMore | Vibe/UseCases/YoutubeDownloaderUseCase.swift:101-106 | One more progress callback is one more upsert and one more published list |
| Registry.ProcessRegistry.constructor | Vibe/UseCases/YoutubeDownloaderUseCase.swift:20-21 | An empty list with no observer and nothing published |
| Registry.ProcessRegistry.SetObserver | Vibe/UseCases/YoutubeDownloaderUseCase.swift:43 | The observer is installed; the list is unchanged |
| Registry.ProcessRegistry.Update | Vibe/UseCases/YoutubeDownloaderUseCase.swift:142-149 | The list becomes the upsert, and the observer, if set, is handed exactly the new list |
| Registry.ProcessRegistry.Remove | Vibe/UseCases/YoutubeDownloaderUseCase.swift:137-140 | The list loses every row of the id, and the observer, if set, is handed exactly the new list |
| Registry.ProcessRegistry.UpdateEach | Vibe/UseCases/YoutubeDownloaderUseCase.swift:101-106 | A sequence of progress records upserts each in turn, publishing the list after each |
| Attempts.AttemptRecords | Vibe/UseCases/YoutubeDownloaderUseCase.swift:104 | Every progress record of attempt k carries attempt k's process id |
| Attempts.AttemptAdvances | Vibe/UseCases/YoutubeDownloaderUseCase.swift:69-87 | One more completed attempt extends the registry state and the published trace by exactly that attempt |
| Attempts.RemainingSpec | Vibe/UseCases/YoutubeDownloaderUseCase.swift:118-125 | After n attempts a prior row stays exactly when its id is none of theirs, in order, and a list with none of those ids is untouched |
| Attempts.RemainingKeepsIdsUnique | Vibe/UseCases/YoutubeDownloaderUseCase.swift:137-147 | Distinct ids stay distinct across all attempts |
| RetryPolicy.ProgressRecords | Vibe/UseCases/YoutubeDownloaderUseCase.swift:101-104 | One record per progress callback, with the attempt's id, the file name, the progress and both byte counts as reals |
| RetryPolicy.Pow2 | Vibe/UseCases/YoutubeDownloaderUseCase.swift:79 | The backoff factor is at least 1 |
| RetryPolicy.ResultOf | Vibe/Domain/Data/YoutubeDownloader.swift:86-88 | Reading how an attempt ended back as the result it returned loses nothing |
| RetryPolicy.AttemptRoundTrip | Vibe/Domain/Data/YoutubeDownloader.swift:86-88 | An attempt's result and how the loop sees it convert to each other and back |
| RetryPolicy.RetryFrom | Vibe/Domain/Data/YoutubeDownloader.swift:85-98 | A run from retry k makes at least k+1 and at most 3 attempts, at most one delay per attempt from k, ends exhausted only after the third, and returns only the location of a successful last attempt |
| RetryPolicy.Retry | Vibe/UseCases/YoutubeDownloaderUseCase.swift:69-86 | The loop makes 1 to 3 attempts; a first attempt that succeeds ends it at once with its location and no delay; a returned location is the last attempt's |
| RetryPolicy.RetriedThroughAll | Vibe/UseCases/YoutubeDownloaderUseCase.swift:69-81 | The loop reaches retry n exactly when every earlier attempt failed and no sleep in between threw |
| RetryPolicy.RetryUnfold | Vibe/UseCases/YoutubeDownloaderUseCase.swift:69-81 | After n retried failures the run is those delays followed by the run from retry n |
| RetryPolicy.RetryFromShape | Vibe/Domain/Data/YoutubeDownloader.swift:85-98 | Any run from retry k: at most 3 attempts in all, every attempt before the last failed, the i-th delay is 2^(k+1+i), one delay per retried failure, and the end reports how the last attempt went |
| RetryPolicy.RetryShape | Vibe/Domain/Data/YoutubeDownloader.swift:81-101 | The whole loop: 1 to 3 attempts, delays 2^1, 2^2, and an end consistent with the attempts |
| RetryPolicy.AllFailuresExhaust | Vibe/UseCases/YoutubeDownloaderUseCase.swift:69-86 | Three failures: exactly 3 attempts, the last error, and delays [2, 4] with none after the last failure |
| RetryPolicy.FirstSuccessEnds | Vibe/UseCases/YoutubeDownloaderUseCase.swift:72 | The first success at attempt k returns its location after exactly k+1 attempts and k delays |
| RetryPolicy.SleepErrorEnds | Vibe/Domain/Data/YoutubeDownloader.swift:94 | A sleep that throws ends the loop with that error after the attempts so far |
| RetryPolicy.IgnoredSleepErrors | Vibe/UseCases/YoutubeDownloaderUseCase.swift:79 | With `try?` no run ends on a sleep error |
| RetryPolicy.BackoffsValues | Vibe/UseCases/YoutubeDownloaderUseCase.swift:79 | The delays are 2 s after the first failure and 4 s after the second |
| DownloaderUseCase.ConvertToDownloadableLink | Vibe/UseCases/YoutubeDownloaderUseCase.swift:151-161 | A link exists exactly when the string parses and the resolver yields a stream, and it is that stream |
| DownloaderUseCase.NoStreamNoLink | Vibe/UseCases/YoutubeDownloaderUseCase.swift:155-160 | A resolver that throws, or finds no stream, gives no link |
| DownloaderUseCase.SucceedsAt | Vibe/UseCases/YoutubeDownloaderUseCase.swift:72 | A success after k failures returns it after k+1 attempts |
| DownloaderUseCase.FailsAt | Vibe/UseCases/YoutubeDownloaderUseCase.swift:73-80 | One more failure takes the loop one retry further |
| DownloaderUseCase.FailsThroughout | Vibe/UseCases/YoutubeDownloaderUseCase.swift:85-86 | Failing through all retries exhausts after 3 attempts |
| DownloaderUseCase.AllAttemptsFailGiveNil | Vibe/UseCases/YoutubeDownloaderUseCase.swift:65-87 | Every attempt failing: nil after exactly 3 attempts with delays [2, 4] |
| DownloaderUseCase.FirstSuccessReturned | Vibe/UseCases/YoutubeDownloaderUseCase.swift:65-87 | The first successful attempt k is returned after exactly k+1 attempts |
| DownloaderUseCase.YoutubeDownloaderUseCase.constructor | Vibe/UseCases/YoutubeDownloaderUseCase.swift:25-34 | No active downloads |
| DownloaderUseCase.YoutubeDownloaderUseCase.DownloadFile | Vibe/UseCases/YoutubeDownloaderUseCase.swift:89-133 | The result is the first completion; the attempt's `activeDownloads` entry and registry rows are gone afterwards on success and failure; the observer saw each progress list and then the list without the attempt |
| DownloaderUseCase.YoutubeDownloaderUseCase.NextAttempt | Vibe/UseCases/YoutubeDownloaderUseCase.swift:72 | Attempt n gives its completion and advances the registry bookkeeping by one attempt |
| DownloaderUseCase.YoutubeDownloaderUseCase.DownloadFileWithRetry | Vibe/UseCases/YoutubeDownloaderUseCase.swift:65-87 | The result, attempt count and delays are those of the reference retry with sleep errors ignored; exactly the attempts' ids leave `activeDownloads` and the registry |
| DownloaderUseCase.YoutubeDownloaderUseCase.DownloadAndGetLocalURL | Vibe/UseCases/YoutubeDownloaderUseCase.swift:37-57 | The observer is installed; no link means nil with no attempt and nothing changed; otherwise the location of the reference run's success, or nil, with the registry as the attempts leave it |
| DomainDownloader.Classify | Vibe/Domain/Data/YoutubeDownloader.swift:137-148 | The three transient `URLError` codes become `networkError`; everything else is unchanged; no transient `URLError` is left |
| DomainDownloader.ClassifyIdempotent | Vibe/Domain/Data/YoutubeDownloader.swift:137-148 | Classifying twice is classifying once |
| DomainDownloader.DownloadableURL | Vibe/Domain/Data/YoutubeDownloader.swift:64-78 | The stream when there is one; any resolver error, `streamNotFound` included, as `decodingError` |
| DomainDownloader.ObservedThrough | Vibe/Domain/Data/YoutubeDownloader.swift:85-98 | The failures seen by the loop are the reference's retried failures |
| DomainDownloader.ObservedBridge | Vibe/Domain/Data/YoutubeDownloader.swift:85-98 | Each observed failure before retry n failed without a throwing sleep |
| DomainDownloader.ObservedSuccess | Vibe/Domain/Data/YoutubeDownloader.swift:87 | A success after retried failures ends the reference run with its location |
| DomainDownloader.ObservedSleepError | Vibe/Domain/Data/YoutubeDownloader.swift:94 | A throwing sleep ends the reference run with its error and the delays asked for |
| DomainDownloader.ObservedExhausted | Vibe/Domain/Data/YoutubeDownloader.swift:98-100 | Three observed failures exhaust with the last error and delays [2, 4] |
| DomainDownloader.RetriedAllStep | Vibe/Domain/Data/YoutubeDownloader.swift:89-95 | A failure followed by a quiet sleep lets the loop go on |
| DomainDownloader.RetriedAllPrefix | Vibe/Domain/Data/YoutubeDownloader.swift:89-95 | Retried failures stay retried when another attempt follows |
| DomainDownloader.LoopSucceeds | Vibe/Domain/Data/YoutubeDownloader.swift:87 | A successful attempt ends the loop with the reference run's location |
| DomainDownloader.LoopFails | Vibe/Domain/Data/YoutubeDownloader.swift:88-96 | A failed attempt records the error and either goes on with one more 2^retryCount delay or ends with the sleep's error |
| DomainDownloader.LoopExhausted | Vibe/Domain/Data/YoutubeDownloader.swift:100 | After three failures the last error is set and the run is exhausted with it |
| DomainDownloader.YoutubeDownloader.constructor | Vibe/Domain/Data/YoutubeDownloader.swift:22-28 | No active downloads |
| DomainDownloader.YoutubeDownloader.AfterFailedSave | Vibe/Domain/Data/YoutubeDownloader.swift:167-175 | A failed save changes no other path, and never leaves new bytes at `<fileName>.m4a` |
| DomainDownloader.YoutubeDownloader.SaveFile | Vibe/Domain/Data/YoutubeDownloader.swift:154-180 | Succeeds exactly when the directory can be created, an old `<fileName>.m4a` removed and the path written, and then holds exactly the bytes there; a failure throws `networkError` of the directory's or the file's error and leaves the old file only when it was not removed; no other path changes |
| DomainDownloader.YoutubeDownloader.AttemptOutcome | Vibe/Domain/Data/YoutubeDownloader.swift:124-148 | One attempt changes no file but `<fileName>.m4a`, and succeeds exactly when its completion is a temporary file that is there and the save can go through, leaving that file's bytes at `<fileName>.m4a` |
| DomainDownloader.YoutubeDownloader.Complete | Vibe/Domain/Data/YoutubeDownloader.swift:119-149 | The one handled completion returns and leaves in the store exactly what `AttemptOutcome` gives: classified failure, read error, or save; the active entry and registry rows of the attempt are gone |
| DomainDownloader.YoutubeDownloader.DeliverCompletions | Vibe/Domain/Data/YoutubeDownloader.swift:116-119 | Only the first of any number of completions acts |
| DomainDownloader.YoutubeDownloader.DownloadFile | Vibe/Domain/Data/YoutubeDownloader.swift:103-152 | One attempt: progress rows, then the first completion settled as `Complete` says, with the attempt's entries removed |
| DomainDownloader.YoutubeDownloader.TrackedStep | Vibe/Domain/Data/YoutubeDownloader.swift:124-148 | An attempt that ended as `AttemptOutcome` says, on the files the last one left, extends the record of attempts by its exact result and files; a success leaves the downloaded bytes at `<fileName>.m4a` |
| DomainDownloader.YoutubeDownloader.TrackedAttempt | Vibe/Domain/Data/YoutubeDownloader.swift:124-148 | For every attempt of the loop: a failed download is classified; only a temporary file succeeds, at `<fileName>.m4a`; a temporary file elsewhere that was missing is that read's error; one that was there is saved whenever the file system allows it, and otherwise fails with `networkError` |
| DomainDownloader.YoutubeDownloader.NextAttempt | Vibe/Domain/Data/YoutubeDownloader.swift:87 | Attempt n returns and leaves exactly what `AttemptOutcome` gives for its completion and the current files, and advances the registry bookkeeping by one attempt |
| DomainDownloader.YoutubeDownloader.RetryRound | Vibe/Domain/Data/YoutubeDownloader.swift:86-96 | One loop round: either the loop goes on with the updated delays and error, or it ends with the reference run's result |
| DomainDownloader.YoutubeDownloader.RetryLoop | Vibe/Domain/Data/YoutubeDownloader.swift:84-100 | The loop's result, attempt count and delays are those of the reference retry over the attempts as they ended, each attempt ending exactly as `AttemptOutcome` says |
| DomainDownloader.YoutubeDownloader.FirstAttemptSaves | Vibe/Domain/Data/YoutubeDownloader.swift:85-88 | A first attempt whose temporary file is there and can be saved succeeds and ends the reference run after one attempt with no delay |
| DomainDownloader.YoutubeDownloader.DownloadFileWithRetry | Vibe/Domain/Data/YoutubeDownloader.swift:81-101 | The result, attempt count and delays are those of the reference retry, sleep errors escaping and exhaustion throwing `networkError` of the last error; each attempt ended exactly as `AttemptOutcome` says on the files the previous one left; a first attempt that can save returns `<fileName>.m4a` after one attempt; a success left its bytes at `<fileName>.m4a` |
| DomainDownloader.YoutubeDownloader.Persist | Vibe/Domain/Data/YoutubeDownloader.swift:51-56 | Saving the downloaded file again leaves the store as it was whenever that save can succeed, even if the duration or record save then fails; the record is saved exactly when all three succeed; otherwise the first failure's own error is rethrown (the save's `networkError` with the files it leaves, then the duration's error, then the store's) |
| DomainDownloader.YoutubeDownloader.DownloadAndPersist | Vibe/Domain/Data/YoutubeDownloader.swift:50-56 | The retry run's error is rethrown as it is, each attempt having ended exactly as `AttemptOutcome` says; after a returned run, the failing later step's own error and the exact files it leaves; the record, titled `fileName` with the duration, is saved only after the download and the file; no file but `<fileName>.m4a` changes |
| DomainDownloader.YoutubeDownloader.DownloadAudioAndSave | Vibe/Domain/Data/YoutubeDownloader.swift:30-62 | A failing guard (`invalidURL`) or lookup (`decodingError`) stops before any attempt with nothing changed; otherwise the composed retry and save, each attempt ending exactly as `AttemptOutcome` says, with each later failure's error and files stated and no record on any failure |
| ManagerDownloader.Normalise | Vibe/Manager/YoutubeDownloader.swift:64-68 | Only `YoutubeDownloaderError` escapes: it passes unchanged, anything else is wrapped as `networkError` |
| ManagerDownloader.NormaliseIdempotent | Vibe/Manager/YoutubeDownloader.swift:64-68 | Normalising twice is normalising once |
| ManagerDownloader.ManagerRecords | Vibe/Manager/YoutubeDownloader.swift:92-94 | One record per progress callback, under the attempt's id, with the progress and no byte counts |
| ManagerDownloader.NoStreamIsStreamNotFound | Vibe/Manager/YoutubeDownloader.swift:78-80 | No natively playable stream throws `streamNotFound` itself |
| ManagerDownloader.ForeignLookupErrorIsNetworkError | Vibe/Manager/YoutubeDownloader.swift:64-75 | A resolver error of another kind becomes `networkError` |
| ManagerDownloader.YoutubeDownloader.constructor | Vibe/Manager/YoutubeDownloader.swift:39-42 | Keeps the registry and the file manager it is given |
| ManagerDownloader.YoutubeDownloader.SaveFile | Vibe/Manager/YoutubeDownloader.swift:111-121 | A plain write of `<fileName>.m4a` in the music directory, replacing what was there; a failed write is `networkError` and changes nothing |
| ManagerDownloader.YoutubeDownloader.DownloadFile | Vibe/Manager/YoutubeDownloader.swift:86-109 | The result is the first completion; the attempt's rows are removed on success and failure; the observer saw each list |
| ManagerDownloader.YoutubeDownloader.DownloadAudioAndSave | Vibe/Manager/YoutubeDownloader.swift:45-69 | Guards throw `invalidURL` before any work; one attempt; every error is a `YoutubeDownloaderError`; a success writes the downloaded bytes to the music directory |
| Text.ContainsAt | Vibe/Domain/Data/YoutubeDownloader.swift:41 | A substring at a position is contained |
| Text.ContainsWitness | Vibe/Domain/Data/YoutubeDownloader.swift:41 | A contained substring sits at some position |
| Links.ValidateLink | Vibe/Domain/Data/YoutubeDownloader.swift:36-43 | The link passes exactly when it is non-empty, parses and its host contains "youtube.com" or "youtu.be"; otherwise `invalidURL` |
| Links.ConvertedLink | Vibe/Domain/Data/YoutubeDownloadableLinkConverter.swift:13-24 | The best playable audio stream's URL; `streamNotFound` when there is none; a throwing lookup's own error |
| DownloadingProcesses.DownloadingProcess.UpdateProgress | Vibe/Entity/DownloadingProcess.swift:35-38 | Progress becomes the argument and the other four fields are kept |
| DownloadingProcesses.UpdateProgressOverwrites | Vibe/Entity/DownloadingProcess.swift:35-38 | A later progress update overrides an earlier one, and setting the current progress changes nothing |
| DownloadingProcesses.DummyData | Vibe/Entity/DownloadingProcess.swift:27-33 | Three entries with their names, progress in [0, 1] and finished bytes at most the expected bytes |
| DownloadedAudios.NewDownloadedAudio | Vibe/Entity/DownloadedAudio.swift:21-29 | Every argument is stored as given, and the date is the creation time |
| DownloadedAudios.InitDefaults | Vibe/Entity/DownloadedAudio.swift:21 | By default there is no cover, the duration is 0 and the record is in no playlist |
| DownloadedAudios.GetImageURL | Vibe/Entity/DownloadedAudio.swift:32-50 | No cover gives nil; an "http" cover is returned with no file check; any other name gives its documents path exactly when that file exists |
| DownloadedAudios.ImageURLIsRemoteOrExisting | Vibe/Entity/DownloadedAudio.swift:32-50 | A cover returned is remote or an existing file, and remote covers do not depend on the files |
| DownloadedAudios.IndexOfId | Vibe/UseCases/AudioPlayerUseCase.swift:66 | The first queue entry with the id, or none when no entry has it |
| AudioStore.WithoutId | Vibe/Domain/Data/SwiftDataAudioRepoImpl.swift:49-52 | A record stays exactly when it has another id |
| AudioStore.WithoutIdCounts | Vibe/Domain/Data/SwiftDataAudioRepoImpl.swift:49-52 | Each record of another id is kept as many times as it occurred, and none of the id |
| AudioStore.AudioRepository.constructor | Vibe/Domain/Data/SwiftDataAudioRepoImpl.swift:15-17 | Holds the records and failure flags it is given |
| AudioStore.AudioRepository.FetchAll | Vibe/Domain/Data/SwiftDataAudioRepoImpl.swift:31-33 | All records, as stored |
| AudioStore.AudioRepository.Save | Vibe/Domain/Data/SwiftDataAudioRepoImpl.swift:19-22 | The record is appended, or the save fails and the records are unchanged |
| AudioStore.AudioRepository.Delete | Vibe/Domain/Data/SwiftDataAudioRepoImpl.swift:49-52 | The records of the id are deleted, or the save fails and the records are unchanged |
| Files.AudioPath | Vibe/Domain/Data/YoutubeDownloader.swift:165 | The path is the directory, "/", the stem and ".m4a" |
| Files.AudioPathInjective | Vibe/Presentation/MainTabView/MainTabViewModel.swift:102 | Two stems give the same path exactly when they are equal |
| Files.AgreeExceptTrans | Vibe/Domain/Data/YoutubeDownloader.swift:165-175 | Changes confined to one path stay confined across steps |
| Files.FileSystem.constructor | Vibe/Domain/Data/YoutubeDownloader.swift:155 | The files and failure sets it is given, and no directory created yet |
| Files.FileSystem.Read | Vibe/Domain/Data/YoutubeDownloader.swift:51 | The file's bytes when it exists, an error naming the path otherwise |
| Files.FileSystem.CreateDirectory | Vibe/Domain/Data/YoutubeDownloader.swift:158-163 | The directory exists afterwards, or the call fails; files are untouched |
| Files.FileSystem.RemoveItem | Vibe/UseCases/SavedAudioUseCase.swift:36 | The file is gone, or the call fails and nothing changed |
| Files.FileSystem.Write | Vibe/Manager/YoutubeDownloader.swift:116 | The path holds the bytes, or the call fails and nothing changed |
| Files.FileSystem.Overwrite | Vibe/Domain/Data/YoutubeDownloader.swift:167-179 | Succeeds exactly when an existing file can be removed and the path written, and then holds the bytes; a failed removal changes nothing, and a failed write after a removal leaves the path absent |
| SavedAudio.LocalPath | Vibe/UseCases/SavedAudioUseCase.swift:40-50 | `<title>.m4a` when it exists, `fileDoesNotExist` otherwise |
| SavedAudio.ProbedLocalPath | Vibe/UseCases/SavedAudioUseCase.swift:40-50 | An existing `<id>.m4a` first, else `<title>.m4a`; found exactly when one of them exists |
| SavedAudio.TitlePathMissesIdNamedFile | Vibe/UseCases/SavedAudioUseCase.swift:42 | A track saved under its id with another title is not found by the title lookup, but is found by probing |
| SavedAudio.TitlePathMissesIdNamedFileExample | Vibe/Presentation/MainTabView/MainTabViewModel.swift:102 | The record "A1" titled "Song", saved as `Documents/A1.m4a`, is not found |
| SavedAudio.ProbingKeepsTitleNamedFiles | Vibe/UseCases/SavedAudioUseCase.swift:42 | When no file carries the id, probing behaves as the title lookup |
| SavedAudio.SavedAudioUseCase.constructor | Vibe/UseCases/SavedAudioUseCase.swift:20-22 | Keeps its repository and file manager |
| SavedAudio.SavedAudioUseCase.SaveAudio | Vibe/UseCases/SavedAudioUseCase.swift:25-27 | Delegated to the repository unchanged |
| SavedAudio.SavedAudioUseCase.GetSavedAudios | Vibe/UseCases/SavedAudioUseCase.swift:29-31 | The repository's records, unchanged |
| SavedAudio.SavedAudioUseCase.GetLocalPath | Vibe/UseCases/SavedAudioUseCase.swift:40-50 | Succeeds exactly when `<title>.m4a` exists |
| SavedAudio.SavedAudioUseCase.DeleteAudio | Vibe/UseCases/SavedAudioUseCase.swift:33-38 | A missing file throws `fileDoesNotExist` and a failed removal its error, both changing nothing; otherwise the file is removed before the record, and on success neither exists |
| SavedAudio.SavedAudioUseCase.DeleteAudioProbing | Vibe/UseCases/SavedAudioUseCase.swift:33-38 | As `deleteAudio`, over the probed path, so a track saved as `<id>.m4a` is deleted |
| MainTab.Downloaded | Vibe/UseCases/YoutubeDownloaderUseCase.swift:37-57 | A downloaded path exists only when the link resolved |
| MainTab.SavedRecordFindsItsFile | Vibe/Presentation/MainTabView/MainTabViewModel.swift:68-102 | The saved record's id is the stem of its file, which probing finds and the title lookup misses |
| MainTab.MainTabViewModel.constructor | Vibe/Presentation/MainTabView/MainTabViewModel.swift:14-35 | No downloading processes |
| MainTab.MainTabViewModel.SaveFile | Vibe/Presentation/MainTabView/MainTabViewModel.swift:86-116 | `<id>.m4a` gets the source bytes, overwriting, and nothing else changes; nil exactly when the read, the directory, the removal or the write fails; a failed removal changes nothing, and a failed write after a removal leaves `<id>.m4a` absent |
| MainTab.MainTabViewModel.StoreDownload | Vibe/Presentation/MainTabView/MainTabViewModel.swift:68-77 | After the download: a copy that can succeed leaves the source bytes at `<id>.m4a` whatever fails after it, and no other file changes; the record is saved and the list refreshed exactly when the copy, the duration and the record save all succeed, and otherwise neither happens |
| MainTab.MainTabViewModel.DownloadAndSave | Vibe/Presentation/MainTabView/MainTabViewModel.swift:59-83 | No download writes no file and saves no record; a successful copy leaves the bytes at `<id>.m4a` even when the duration or the record save then fails; the record (id, title `fileName`, URL `keyword`, cover `imgURL`) is saved only after the file and the duration, and only then is the list refreshed; the view shows the last list the observer handed over, or its old list when none was |
| AudioPlayer.NextIndex | Vibe/UseCases/AudioPlayerUseCase.swift:89-101 | Nothing plays on an empty queue or at the end without looping; otherwise one step on, wrapping to 0 only when looping, within bounds from -1 |
| AudioPlayer.PreviousIndex | Vibe/UseCases/AudioPlayerUseCase.swift:103-115 | Nothing plays on an empty queue or at the start without looping; otherwise one step back, wrapping to the last only when looping, within bounds up to the count |
| AudioPlayer.PreviousUndoesNext | Vibe/UseCases/AudioPlayerUseCase.swift:89-115 | "Previous" after "next" returns to the track |
| AudioPlayer.NextUndoesPrevious | Vibe/UseCases/AudioPlayerUseCase.swift:89-115 | "Next" after "previous" returns to the track |
| AudioPlayer.AfterNextsCompose | Vibe/UseCases/AudioPlayerUseCase.swift:89-101 | a presses then b presses are a+b presses |
| AudioPlayer.AfterNextsInside | Vibe/UseCases/AudioPlayerUseCase.swift:92-93 | Inside the queue each press moves one track on |
| AudioPlayer.LoopingNextsCycle | Vibe/UseCases/AudioPlayerUseCase.swift:92-96 | With looping, as many presses as tracks come back to the start |
| AudioPlayer.NextsWithoutLoopingStop | Vibe/UseCases/AudioPlayerUseCase.swift:92-98 | Without looping the presses stop on the last track |
| AudioPlayer.AudioPlayerUseCaseImpl.constructor | Vibe/UseCases/AudioPlayerUseCase.swift:33-53 | Empty queue, index -1, looping off, nothing sent |
| AudioPlayer.AudioPlayerUseCaseImpl.SetupPlaylist | Vibe/UseCases/AudioPlayerUseCase.swift:55-63 | The queue becomes the saved records |
| AudioPlayer.AudioPlayerUseCaseImpl.Play | Vibe/UseCases/AudioPlayerUseCase.swift:65-70 | The index moves to the first entry with the id, or stays when there is none; the track is played either way |
| AudioPlayer.AudioPlayerUseCaseImpl.Pause | Vibe/UseCases/AudioPlayerUseCase.swift:72-74 | Only the audio manager is told; queue, index and looping are unchanged |
| AudioPlayer.AudioPlayerUseCaseImpl.Resume | Vibe/UseCases/AudioPlayerUseCase.swift:76-78 | Only the audio manager is told; queue, index and looping are unchanged |
| AudioPlayer.AudioPlayerUseCaseImpl.Stop | Vibe/UseCases/AudioPlayerUseCase.swift:80-83 | The audio manager stops and the index becomes -1 |
| AudioPlayer.AudioPlayerUseCaseImpl.Seek | Vibe/UseCases/AudioPlayerUseCase.swift:85-87 | Only the audio manager is told; queue, index and looping are unchanged |
| AudioPlayer.AudioPlayerUseCaseImpl.PlayNext | Vibe/UseCases/AudioPlayerUseCase.swift:89-101 | The index follows `NextIndex`, and the track played is the queue entry there; otherwise nothing changes and nothing plays |
| AudioPlayer.AudioPlayerUseCaseImpl.PlayPrevious | Vibe/UseCases/AudioPlayerUseCase.swift:103-115 | The index follows `PreviousIndex`, and the track played is the queue entry there; otherwise nothing changes and nothing plays |
| AudioPlayer.AudioPlayerUseCaseImpl.ToggleLoop | Vibe/UseCases/AudioPlayerUseCase.swift:117-119 | Looping flips and nothing else changes, so two calls restore it |
| SongList.SongListViewModel.constructor | Vibe/Presentation/SongListView.swift:12-36 | Nothing current, not playing |
| SongList.SongListViewModel.PlayAudio | Vibe/Presentation/SongListView.swift:57-67 | The current track is paused if playing and resumed if not, without `play`; any other track is played |
| SongList.SongListViewModel.Delete | Vibe/Presentation/SongListView.swift:91-101 | The current track is stopped before the deletion and no other is; `<title>.m4a` is removed whenever it exists and can be removed, even when the record then cannot be deleted, and otherwise no file changes; the playlist is refreshed and the records of the id deleted only when the whole deletion succeeded |
| Loops.ImgName | Vibe/Entity/LoopOption.swift:16-25 | Every case has one of the three icon names |
| Loops.OptionNamed | Vibe/Entity/LoopOption.swift:16-25 | A name maps back only to the case that has it |
| Loops.ImgNameRoundTrip | Vibe/Entity/LoopOption.swift:16-25 | Each case's icon name leads back to the case |
| Loops.ImgNameInjective | Vibe/Entity/LoopOption.swift:16-25 | Distinct cases have distinct icon names |
| Loops.AllCasesComplete | Vibe/Entity/LoopOption.swift:11-14 | Exactly three distinct cases, in declaration order, and every case is among them |
| SearchResults.GetYoutubeURL | Vibe/Entity/YoutubeSearchResponse.swift:33-35 | The watch prefix followed by the id, 32 + the id's length long, with host "www.youtube.com" |
| SearchResults.VideoIdOf | Vibe/Entity/YoutubeSearchResponse.swift:33-35 | A URL gives back an id exactly when it starts with the watch prefix |
| SearchResults.VideoIdRoundTrip | Vibe/Entity/YoutubeSearchResponse.swift:33-35 | The id is recovered from its URL |
| SearchResults.GetYoutubeURLInjective | Vibe/Entity/YoutubeSearchResponse.swift:33-35 | Distinct ids give distinct URLs |
| SearchResults.WatchLinkPassesHostGuard | Vibe/Entity/YoutubeSearchResponse.swift:34 | A watch URL's host contains "youtube.com", so the link passes the downloader's guard |
| SearchResults.GetDummyItems | Vibe/Entity/YoutubeSearchResponse.swift:18-26 | Nine identical items with id "dQw4w9WgXcQ" and the dummy title |
| SearchResults.DummyItemsLink | Vibe/Entity/YoutubeSearchResponse.swift:18-26 | Each dummy item's URL gives back its id and passes the guard |
| DurationFormat.NatToString | Vibe/Presentation/CurrentPlayingView/CurrentPlayingView.swift:104 | Decimal digits with no leading zero, one digit exactly below 10 |
| DurationFormat.NatToStringValue | Vibe/Presentation/CurrentPlayingView/CurrentPlayingView.swift:104 | The digits read back as the number |
| DurationFormat.Pad2 | Vibe/Presentation/CurrentPlayingView/CurrentPlayingView.swift:104 | Exactly two digits, zero-padded, reading back as the seconds |
| DurationFormat.FormatDuration | Vibe/Presentation/CurrentPlayingView/CurrentPlayingView.swift:101-105 | A clock face: at least four characters, a colon third from the end, seconds digits with the tens at most 5; exactly four characters for durations under ten minutes |
| DurationFormat.FormatDurationShape | Vibe/Presentation/CurrentPlayingView/CurrentPlayingView.swift:101-105 | Digits, ":", then exactly two digits |
| DurationFormat.ClockReads | Vibe/Presentation/CurrentPlayingView/CurrentPlayingView.swift:104 | An `m:ss` string reads as m*60 + ss |
| DurationFormat.ClockOfParts | Vibe/Presentation/CurrentPlayingView/CurrentPlayingView.swift:102-104 | m minutes and s < 60 seconds, formatted as `m:ss`, read back as m*60 + s, and each part reads back as itself |
| DurationFormat.FormatDurationRoundTrip | Vibe/Presentation/CurrentPlayingView/CurrentPlayingView.swift:102-104 | The text reads back as the total: minutes*60 + seconds = s with seconds < 60 |
| DurationFormat.FormatDurationInjective | Vibe/Presentation/CurrentPlayingView/CurrentPlayingView.swift:101-105 | Distinct durations format differently |
| DurationFormat.FormatDurationExamples | Vibe/Presentation/CurrentPlayingView/CurrentPlayingView.swift:101-105 | 0 is "0:00", 60 is "1:00", 3600 is "60:00" |

## Left out

- The download itself is left out. URLSession, `FileDownloader` and its delegates are I/O. An attempt is an input of progress reports and completions, and the progress ratio is taken as given.
- YouTubeKit stream selection is left out, because it is a foreign library. The resolver's answer is an input.
- `URL(string:)` parsing is left out, because it is Foundation. The parse result and its host are inputs.
- Real time is left out. `Task.sleep` is an oracle that says whether the sleep throws, and delays are whole seconds (`Pow2`) instead of `pow(2.0, …)` nanoseconds.
- Concurrency is left out. `withCheckedThrowingContinuation`, `DispatchQueue.main.async` and `[weak self]` are modelled as sequential calls: the callbacks of one attempt run before the next attempt, and a released `self` is never modelled.
- SwiftData persistence is an abstract record list.
- AudioStore.AudioRepository.Save: a failed save leaves the records unchanged. In the app, `context.insert` runs before `context.save()` throws, so the record may stay in the context.
- AudioStore.AudioRepository.Delete: a failed save leaves the records unchanged. In the app, `context.delete` runs before `context.save()` throws, so the record may already be gone from the context. What an unsaved SwiftData context shows afterwards is not modelled.
- AVFoundation is left out. The duration is an input, and the audio manager is a log of the commands it receives.
- Network search (`YoutubeVideoRepoImpl`), the SwiftUI views, `MusicVisualizerView` and the localised error descriptions are left out, because they are I/O, presentation or random.
- The other copies of `formatDuration`, in the saved-audio list, the row view and the old saved view, are the same text as the one modelled. `Int(duration)` of a negative, NaN or infinite interval is float behaviour, so durations are whole non-negative seconds.
- `downloadableURLNotFound`, in both downloaders, is unreachable: `getDownloadableURL` never returns nil. The model has no path to it.
- The `NSError` fallback of the domain retry loop is kept in the code but cannot happen, because `lastError` is always set after a failure.
- The manager downloader calls a `DownloadingProcess` initializer with only a file name and a progress, which the record type does not declare. The model gives those records byte counts of 0.
- `SongListViewModel.delete` calls `audioPlayerUseCase.updatePlaylist()`, which `AudioPlayerUseCaseImpl` does not define. The call is modelled as a counter of refreshes.
- `MainTabViewModel.downloadAndSave` calls `audioPlayerUseCase.getDuration(for:)` and `audioPlayerUseCase.updateAllSongsList()` (Vibe/Presentation/MainTabView/MainTabViewModel.swift:73-77). Neither is declared by the `AudioPlayerUseCase` protocol (Vibe/UseCases/AudioPlayerUseCase.swift:12-26) or defined by `AudioPlayerUseCaseImpl`. The first is modelled as the `duration` parameter and the second as the `allSongsListUpdates` counter.
- The error printing in `MainTabViewModel` and `SongListViewModel` is left out, because it is I/O; the errors themselves are swallowed as the code does.
- UUIDs and `Date()` are parameters (`newId`, `recordId`, `now`, and each attempt's `processId`).
- AudioPlayer.AudioPlayerUseCaseImpl.PlayNext: requires `currentIndex >= -1`. Below that the app's `playlist[currentIndex]` traps, and the trap is not modelled.
- AudioPlayer.AudioPlayerUseCaseImpl.PlayPrevious: requires `currentIndex <= count`. Beyond that the app's `playlist[currentIndex]` traps, and the trap is not modelled.
- AudioPlayer.AudioPlayerUseCaseImpl.SetupPlaylist: models only the successful load. In the app the load runs in a `Task` that prints and keeps the old queue when fetching fails.
- The `onProgress` rule "no callback while the expected size is unknown" in `FileDownloader` is not modelled: the progress reports are taken as delivered.

## Findings

| source | as written | input that shows it | evidently intended | confidence | as-written member | corrected member |
|---|---|---|---|---|---|---|
| Vibe/UseCases/SavedAudioUseCase.swift:42 | `getLocalPath` looks for `<title>.m4a`, but `MainTabViewModel.saveFile` (Vibe/Presentation/MainTabView/MainTabViewModel.swift:102) saves downloads as `<id>.m4a` | record id "A1", title "Song", files `{Documents/A1.m4a}`: `deleteAudio` throws `fileDoesNotExist`, and the track can never be deleted | find the file under the name it was saved with: `<id>.m4a` first, then `<title>.m4a` for files saved by the domain downloader | not executed | SavedAudio.LocalPath, SavedAudio.SavedAudioUseCase.DeleteAudio, SavedAudio.TitlePathMissesIdNamedFile, SavedAudio.TitlePathMissesIdNamedFileExample | SavedAudio.ProbedLocalPath, SavedAudio.SavedAudioUseCase.DeleteAudioProbing |
