/** What a run of download attempts does to a downloader's list of in-flight jobs and
    its set of active downloads: each attempt adds its row through its progress
    callbacks and removes it again when it completes. Shared by both retrying
    downloaders. */
module Attempts {
  import opened DownloadingProcesses
  import opened Registry
  import opened RetryPolicy

  /** The progress records attempt `k` publishes. */
  function AttemptRecords(fileName: string, script: nat -> AttemptScript, k: nat): (r: seq<DownloadingProcess>)
    ensures forall j :: 0 <= j < |r| ==> r[j].id == script(k).processId
  {
    ProgressRecords(script(k).processId, fileName, script(k).progress)
  }

  /** The process ids of the first `n` attempts. */
  function AttemptIdSet(script: nat -> AttemptScript, n: nat): set<string> {
    if n == 0 then {} else AttemptIdSet(script, n - 1) + {script(n - 1).processId}
  }

  /** The list after the first `n` attempts have each removed their id. */
  function Remaining(s0: Processes, script: nat -> AttemptScript, n: nat): Processes {
    if n == 0 then s0 else Removed(Remaining(s0, script, n - 1), script(n - 1).processId)
  }

  /** Everything the observer receives over the first `n` attempts: each attempt's
      progress lists, then the list once that attempt's row is gone. */
  function AttemptsTrace(s0: Processes, fileName: string, script: nat -> AttemptScript, n: nat): seq<Processes> {
    if n == 0 then []
    else
      AttemptsTrace(s0, fileName, script, n - 1)
        + UpsertTrace(Remaining(s0, script, n - 1), AttemptRecords(fileName, script, n - 1))
        + [Remaining(s0, script, n)]
  }

  /** A downloader's registry and active downloads after the first `n` attempts of a
      retry loop that started from the list `s0`, the active downloads `active0` and
      the publications `published0`. */
  ghost predicate AfterAttempts(registry: ProcessRegistry, active: set<string>,
                                s0: Processes, active0: set<string>, published0: seq<Processes>,
                                fileName: string, script: nat -> AttemptScript, n: nat)
    reads registry
  {
    && active == active0 - AttemptIdSet(script, n)
    && registry.processes == Remaining(s0, script, n)
    && registry.published == published0 + (if registry.observing then AttemptsTrace(s0, fileName, script, n) else [])
  }

  /** One more attempt, upserting its records and then removing its id, takes the list
      and the publications from their state after `n` attempts to that after `n + 1`. */
  lemma {:induction false} AttemptAdvances(s0: Processes, published0: seq<Processes>, fileName: string,
                        script: nat -> AttemptScript, n: nat, observing: bool,
                        published: seq<Processes>, processesAfter: Processes, publishedAfter: seq<Processes>)
    requires published == published0 + (if observing then AttemptsTrace(s0, fileName, script, n) else [])
    requires processesAfter == Removed(Remaining(s0, script, n), script(n).processId)
    requires publishedAfter == published
      + (if observing then UpsertTrace(Remaining(s0, script, n), AttemptRecords(fileName, script, n)) + [processesAfter] else [])
    ensures processesAfter == Remaining(s0, script, n + 1)
    ensures publishedAfter == published0 + (if observing then AttemptsTrace(s0, fileName, script, n + 1) else [])
  {
    var progress := UpsertTrace(Remaining(s0, script, n), AttemptRecords(fileName, script, n));
    var before := AttemptsTrace(s0, fileName, script, n);
    assert AttemptsTrace(s0, fileName, script, n + 1) == before + progress + [processesAfter];
    if observing {
      ConcatAssoc(published0, before, progress + [processesAfter]);
      ConcatAssoc(before, progress, [processesAfter]);
    }
  }

  /** Regrouping a concatenation, kept apart from `AttemptAdvances` so that its proof
      does not see that lemma's many sequence terms. */
  lemma ConcatAssoc<T>(a: seq<T>, b: seq<T>, c: seq<T>)
    ensures (a + b) + c == a + (b + c)
  {
  }

  /** After `n` attempts the list holds exactly the entries of `s0` whose id is none of
      the attempts' ids, in their original order; when no attempt's id was in `s0`,
      the list is as it was. */
  lemma {:induction false} RemainingSpec(s0: Processes, script: nat -> AttemptScript, n: nat)
    ensures forall q :: q in Remaining(s0, script, n) <==> q in s0 && q.id !in AttemptIdSet(script, n)
    ensures IsSubsequence(Remaining(s0, script, n), s0)
    ensures (forall k: nat :: k < n ==> !HasId(s0, script(k).processId)) ==> Remaining(s0, script, n) == s0
  {
    if n == 0 {
      SubsequenceReflexive(s0);
    } else {
      var prev := Remaining(s0, script, n - 1);
      RemainingSpec(s0, script, n - 1);
      RemovedSpec(prev, script(n - 1).processId);
      SubsequenceTransitive(Remaining(s0, script, n), prev, s0);
      if forall k: nat :: k < n ==> !HasId(s0, script(k).processId) {
        assert forall k: nat :: k < n - 1 ==> !HasId(s0, script(k).processId) by {
          forall k: nat | k < n - 1 ensures !HasId(s0, script(k).processId) {
            assert k < n;
          }
        }
        assert !HasId(s0, script(n - 1).processId);
        RemovedAbsent(s0, script(n - 1).processId);
      }
    }
  }

  /** With ids unique before, they stay unique however many attempts ran. */
  lemma {:induction false} RemainingKeepsIdsUnique(s0: Processes, script: nat -> AttemptScript, n: nat)
    requires IdsUnique(s0)
    ensures IdsUnique(Remaining(s0, script, n))
  {
    if n > 0 {
      RemainingKeepsIdsUnique(s0, script, n - 1);
      RemovedKeepsIdsUnique(Remaining(s0, script, n - 1), script(n - 1).processId);
    }
  }
}
