/** One download attempt as the rest of the app sees it, and the bounded retry loop
    that the two retrying downloaders share: at most three attempts, a wait of
    2^retryCount seconds after each failure that will be retried. */
module RetryPolicy {
  import opened Wrappers
  import opened Errors
  import opened DownloadingProcesses

  /** One progress callback of a download task: the fraction done, the bytes written
      so far and the bytes expected. */
  datatype ProgressReport = ProgressReport(progress: real, finishedByte: int, totalByte: int)

  /** What the downloader does for one attempt: the id generated for the attempt's
      `DownloadingProcess`, its progress callbacks, the completion it reports first
      (a temporary file location or an error), and any completion it reports after
      that one. Progress callbacks precede the first completion. */
  datatype AttemptScript = AttemptScript(
    processId: string,
    progress: seq<ProgressReport>,
    completion: Result<string, Error>,
    lateCompletions: seq<Result<string, Error>>)

  /** The record a progress callback builds:
      `DownloadingProcess(id:fileName:progress:expectedByte:finishedByte:)`. */
  function ProgressRecords(id: string, fileName: string, reports: seq<ProgressReport>): (r: seq<DownloadingProcess>)
    ensures |r| == |reports|
    ensures forall k :: 0 <= k < |r| ==> r[k].id == id && r[k].fileName == fileName
    ensures forall k :: 0 <= k < |r| ==>
      r[k].progress == reports[k].progress &&
      r[k].expectedByte == reports[k].totalByte as real &&
      r[k].finishedByte == reports[k].finishedByte as real
    decreases |reports|
  {
    if |reports| == 0 then []
    else
      var rep := reports[|reports| - 1];
      ProgressRecords(id, fileName, reports[..|reports| - 1])
        + [DownloadingProcess(id, fileName, rep.progress, rep.totalByte as real, rep.finishedByte as real)]
  }

  /** How one attempt ended, as the retry loop sees it. */
  datatype Attempt = Succeeded(location: string) | Failed(error: Error)

  function AttemptOf(completion: Result<string, Error>): Attempt {
    match completion
    case Ok(location) => Succeeded(location)
    case Err(e) => Failed(e)
  }

  /** The result an attempt that ended as `a` returned. */
  function ResultOf(a: Attempt): (r: Result<string, Error>)
    ensures AttemptOf(r) == a
  {
    match a
    case Succeeded(location) => Ok(location)
    case Failed(e) => Err(e)
  }

  /** An attempt's result and how the loop sees it determine each other. */
  lemma AttemptRoundTrip(r: Result<string, Error>, a: Attempt)
    ensures ResultOf(AttemptOf(r)) == r
    ensures AttemptOf(ResultOf(a)) == a
  {
  }

  /** How the retry loop ended: a location was returned; the last allowed attempt
      failed; or a back-off sleep threw. */
  datatype RetryEnd = Returned(location: string) | Exhausted(lastError: Error) | SleepInterrupted(error: Error)

  /** The loop's end, the attempts it made and the delays it asked for, in seconds. */
  datatype RetryRun = RetryRun(end: RetryEnd, attempts: nat, delays: seq<nat>)

  /** `maxRetryCount` / `maxRetries` */
  const MaxAttempts: nat := 3

  function Pow2(n: nat): (r: nat)
    ensures r >= 1
  {
    if n == 0 then 1 else 2 * Pow2(n - 1)
  }

  /** The delays asked for after the first `n` failures: 2, 4, ..., 2^n. */
  function Backoffs(n: nat): seq<nat>
  {
    if n == 0 then [] else Backoffs(n - 1) + [Pow2(n)]
  }

  /** A sleep that never throws, or whose error is discarded by `try?`. */
  function NoSleepError(n: nat): Option<Error> { None }

  /** The retry loop from the moment `retryCount == k`. `outcome(k)` is how attempt
      `k` (counting from 0) ends; `sleep(n)` is what the back-off sleep after the n-th
      failure throws, if anything. */
  function RetryFrom(outcome: nat -> Attempt, sleep: nat -> Option<Error>, k: nat): (r: RetryRun)
    requires k < MaxAttempts
    ensures k + 1 <= r.attempts <= MaxAttempts
    ensures |r.delays| <= r.attempts - k
    ensures r.end.Exhausted? ==> r.attempts == MaxAttempts
    ensures r.end.Returned? ==> outcome(r.attempts - 1) == Succeeded(r.end.location)
    decreases MaxAttempts - k
  {
    match outcome(k)
    case Succeeded(location) => RetryRun(Returned(location), k + 1, [])
    case Failed(e) =>
      if k + 1 == MaxAttempts then RetryRun(Exhausted(e), k + 1, [])
      else if sleep(k + 1).Some? then RetryRun(SleepInterrupted(sleep(k + 1).value), k + 1, [Pow2(k + 1)])
      else
        var rest := RetryFrom(outcome, sleep, k + 1);
        RetryRun(rest.end, rest.attempts, [Pow2(k + 1)] + rest.delays)
  }

  /** The whole retry loop. */
  function Retry(outcome: nat -> Attempt, sleep: nat -> Option<Error>): (r: RetryRun)
    ensures 1 <= r.attempts <= MaxAttempts && |r.delays| <= r.attempts
    ensures outcome(0).Succeeded? ==> r == RetryRun(Returned(outcome(0).location), 1, [])
    ensures r.end.Returned? ==> outcome(r.attempts - 1) == Succeeded(r.end.location)
  {
    RetryFrom(outcome, sleep, 0)
  }

  /** The first `n` attempts failed and none of the sleeps after them threw. */
  predicate RetriedThrough(outcome: nat -> Attempt, sleep: nat -> Option<Error>, n: nat) {
    n == 0 || (RetriedThrough(outcome, sleep, n - 1) && outcome(n - 1).Failed? && sleep(n).None?)
  }

  lemma {:induction false} RetriedThroughAll(outcome: nat -> Attempt, sleep: nat -> Option<Error>, n: nat)
    ensures RetriedThrough(outcome, sleep, n) <==> forall j: nat :: j < n ==> outcome(j).Failed? && sleep(j + 1).None?
  {
    if n > 0 {
      RetriedThroughAll(outcome, sleep, n - 1);
      assert RetriedThrough(outcome, sleep, n - 1) <==> forall j: nat :: j < n - 1 ==> outcome(j).Failed? && sleep(j + 1).None?;
      assert RetriedThrough(outcome, sleep, n) <==> RetriedThrough(outcome, sleep, n - 1) && outcome(n - 1).Failed? && sleep(n).None?;
      if RetriedThrough(outcome, sleep, n) {
        assert RetriedThrough(outcome, sleep, n - 1) && outcome(n - 1).Failed? && sleep(n).None?;
        forall j: nat | j < n ensures outcome(j).Failed? && sleep(j + 1).None? {
          if j < n - 1 {
            assert outcome(j).Failed? && sleep(j + 1).None?;
          }
        }
      } else if RetriedThrough(outcome, sleep, n - 1) {
        assert !(outcome(n - 1).Failed? && sleep(n).None?);
      } else {
        var j: nat :| j < n - 1 && !(outcome(j).Failed? && sleep(j + 1).None?);
        assert j < n;
      }
    }
  }

  /** After `n` failures, each followed by a sleep that did not throw, the loop has
      asked for `Backoffs(n)` and goes on as from `retryCount == n`. */
  lemma {:induction false} RetryUnfold(outcome: nat -> Attempt, sleep: nat -> Option<Error>, n: nat)
    requires n < MaxAttempts
    requires forall j: nat :: j < n ==> outcome(j).Failed? && sleep(j + 1).None?
    ensures var rest := RetryFrom(outcome, sleep, n);
      Retry(outcome, sleep) == RetryRun(rest.end, rest.attempts, Backoffs(n) + rest.delays)
  {
    if n > 0 {
      RetryUnfold(outcome, sleep, n - 1);
      var rest := RetryFrom(outcome, sleep, n);
      assert outcome(n - 1).Failed? && sleep(n).None?;
      assert RetryFrom(outcome, sleep, n - 1) == RetryRun(rest.end, rest.attempts, [Pow2(n)] + rest.delays);
      assert Backoffs(n) == Backoffs(n - 1) + [Pow2(n)];
      assert Backoffs(n - 1) + ([Pow2(n)] + rest.delays) == Backoffs(n) + rest.delays;
    }
  }

  /** The shape of every run from `k`: between 1 and 3 attempts in all, every attempt
      before the last one failed, the i-th delay asked for is 2^(k+1+i), one delay per
      retried failure, and the end says how the last attempt went. */
  lemma {:induction false} RetryFromShape(outcome: nat -> Attempt, sleep: nat -> Option<Error>, k: nat)
    requires k < MaxAttempts
    ensures var r := RetryFrom(outcome, sleep, k);
      && k + 1 <= r.attempts <= MaxAttempts
      && (forall j :: k <= j < r.attempts - 1 ==> outcome(j).Failed? && sleep(j + 1).None?)
      && (forall i :: 0 <= i < |r.delays| ==> r.delays[i] == Pow2(k + 1 + i))
      && |r.delays| == (if r.end.SleepInterrupted? then r.attempts - k else r.attempts - k - 1)
      && (r.end.Returned? ==> outcome(r.attempts - 1) == Succeeded(r.end.location))
      && (r.end.Exhausted? ==> r.attempts == MaxAttempts && outcome(r.attempts - 1) == Failed(r.end.lastError))
      && (r.end.SleepInterrupted? ==>
            r.attempts < MaxAttempts && outcome(r.attempts - 1).Failed? && sleep(r.attempts) == Some(r.end.error))
    decreases MaxAttempts - k
  {
    match outcome(k)
    case Succeeded(_) =>
    case Failed(_) =>
      if k + 1 < MaxAttempts && sleep(k + 1).None? {
        RetryFromShape(outcome, sleep, k + 1);
        var rest := RetryFrom(outcome, sleep, k + 1);
        var d := [Pow2(k + 1)] + rest.delays;
        assert forall i :: 1 <= i < |d| ==> d[i] == rest.delays[i - 1];
      }
  }

  /** The same shape for the whole loop. */
  lemma RetryShape(outcome: nat -> Attempt, sleep: nat -> Option<Error>)
    ensures var r := Retry(outcome, sleep);
      && 1 <= r.attempts <= MaxAttempts
      && (forall j :: 0 <= j < r.attempts - 1 ==> outcome(j).Failed?)
      && (forall i :: 0 <= i < |r.delays| ==> r.delays[i] == Pow2(i + 1))
      && |r.delays| == (if r.end.SleepInterrupted? then r.attempts else r.attempts - 1)
      && (r.end.Returned? ==> outcome(r.attempts - 1) == Succeeded(r.end.location))
      && (r.end.Exhausted? ==> r.attempts == MaxAttempts && outcome(MaxAttempts - 1) == Failed(r.end.lastError))
  {
    RetryFromShape(outcome, sleep, 0);
  }

  /** Three failures, sleeps that do not throw: exactly three attempts, the last
      attempt's error, delays of 2 s and 4 s and none after the final failure. */
  lemma AllFailuresExhaust(outcome: nat -> Attempt, sleep: nat -> Option<Error>)
    requires forall j :: 0 <= j < MaxAttempts ==> outcome(j).Failed?
    requires sleep(1).None? && sleep(2).None?
    ensures Retry(outcome, sleep) == RetryRun(Exhausted(outcome(2).error), 3, [2, 4])
  {
    assert outcome(0).Failed? && outcome(1).Failed? && outcome(2).Failed?;
  }

  /** The first success, at attempt k, ends the loop after exactly k + 1 attempts with
      that attempt's location, having waited 2^1 .. 2^k seconds. */
  lemma {:induction false} FirstSuccessEnds(outcome: nat -> Attempt, sleep: nat -> Option<Error>, k: nat)
    requires k < MaxAttempts && outcome(k).Succeeded?
    requires forall j: nat :: j < k ==> outcome(j).Failed? && sleep(j + 1).None?
    ensures Retry(outcome, sleep) == RetryRun(Returned(outcome(k).location), k + 1, Backoffs(k))
  {
    RetryUnfold(outcome, sleep, k);
    assert Backoffs(k) + [] == Backoffs(k);
  }

  /** A sleep that throws after failure k (from 0) ends the loop there, with that
      error, after k + 1 attempts and the delays up to and including 2^(k+1). */
  lemma {:induction false} SleepErrorEnds(outcome: nat -> Attempt, sleep: nat -> Option<Error>, k: nat)
    requires k + 1 < MaxAttempts && outcome(k).Failed? && sleep(k + 1).Some?
    requires forall j: nat :: j < k ==> outcome(j).Failed? && sleep(j + 1).None?
    ensures Retry(outcome, sleep) == RetryRun(SleepInterrupted(sleep(k + 1).value), k + 1, Backoffs(k + 1))
  {
    RetryUnfold(outcome, sleep, k);
  }

  /** When sleep errors cannot occur, the loop never ends on one. */
  lemma IgnoredSleepErrors(outcome: nat -> Attempt)
    ensures !Retry(outcome, NoSleepError).end.SleepInterrupted?
  {
    RetryFromShape(outcome, NoSleepError, 0);
  }

  lemma BackoffsValues()
    ensures Backoffs(1) == [2] && Backoffs(2) == [2, 4]
  {
  }
}
