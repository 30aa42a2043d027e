/** The list of in-flight downloads that each downloader keeps (`currentProcesses`)
    together with the callback that receives the whole list after every change.
    The three downloaders in the app carry the same two operations,
    `updateDownloadingProcess` (upsert by id) and `removeDownloadingProcess`
    (delete by id); they are modelled once, here. */
module Registry {
  import opened Wrappers
  import opened DownloadingProcesses

  type Processes = seq<DownloadingProcess>

  /** Some entry carries `id`. */
  predicate HasId(s: Processes, id: string) {
    exists j :: 0 <= j < |s| && s[j].id == id
  }

  /** At most one entry carries `id`. */
  predicate AtMostOne(s: Processes, id: string) {
    forall i, j :: 0 <= i < |s| && 0 <= j < |s| && s[i].id == id && s[j].id == id ==> i == j
  }

  /** No two entries share an id. */
  predicate IdsUnique(s: Processes) {
    forall i, j :: 0 <= i < j < |s| ==> s[i].id != s[j].id
  }

  /** `a` is `b` with some entries deleted and the rest in their original order. */
  predicate IsSubsequence(a: Processes, b: Processes)
    decreases |b|
  {
    if |a| == 0 then true
    else if |b| == 0 then false
    else (a[0] == b[0] && IsSubsequence(a[1..], b[1..])) || IsSubsequence(a, b[1..])
  }

  /** `firstIndex(where: { $0.id == id })` */
  function FirstIndexOf(s: Processes, id: string): (r: Option<nat>)
    ensures r.Some? ==> r.value < |s| && s[r.value].id == id
    ensures r.Some? ==> forall j :: 0 <= j < r.value ==> s[j].id != id
    ensures r.None? <==> !HasId(s, id)
  {
    if |s| == 0 then None
    else if s[0].id == id then Some(0)
    else match FirstIndexOf(s[1..], id)
      case Some(i) => Some(i + 1)
      case None =>
        assert forall j :: 1 <= j < |s| ==> s[j] == s[1..][j - 1];
        None
  }

  /** `updateDownloadingProcess`: the first entry with the same id is replaced in
      place; when there is none, the process is appended. */
  function Upserted(s: Processes, p: DownloadingProcess): (r: Processes)
  {
    match FirstIndexOf(s, p.id)
    case Some(i) => assert s[i := p][i] == p; s[i := p]
    case None => assert (s + [p])[|s|] == p; s + [p]
  }

  /** `removeAll { $0.id == id }` */
  function Removed(s: Processes, id: string): (r: Processes)
    ensures |r| <= |s| && (HasId(s, id) ==> |r| < |s|)
    decreases |s|
  {
    if |s| == 0 then []
    else if s[0].id == id then Removed(s[1..], id)
    else [s[0]] + Removed(s[1..], id)
  }

  /** One upsert per progress callback, in order. */
  function UpsertAll(s: Processes, records: seq<DownloadingProcess>): Processes
    decreases |records|
  {
    if |records| == 0 then s
    else Upserted(UpsertAll(s, records[..|records| - 1]), records[|records| - 1])
  }

  /** The lists those upserts publish, one per callback. */
  function UpsertTrace(s: Processes, records: seq<DownloadingProcess>): seq<Processes>
    decreases |records|
  {
    if |records| == 0 then []
    else UpsertTrace(s, records[..|records| - 1]) + [UpsertAll(s, records)]
  }

  /** What the observer receives after one change: the whole list, if it is set. */
  function Publication(observing: bool, s: Processes): seq<Processes> {
    if observing then [s] else []
  }

  // ---- upsert ----

  /** An id already present: its first entry is replaced, the length and every other
      entry stay as they were. */
  lemma {:induction false} UpsertReplacesFirstMatch(s: Processes, p: DownloadingProcess, i: nat)
    requires i < |s| && s[i].id == p.id
    requires forall j :: 0 <= j < i ==> s[j].id != p.id
    ensures |Upserted(s, p)| == |s|
    ensures Upserted(s, p)[i] == p
    ensures forall j :: 0 <= j < |s| && j != i ==> Upserted(s, p)[j] == s[j]
  {
    var f := FirstIndexOf(s, p.id);
    assert f.Some? by { assert HasId(s, p.id) by { assert s[i].id == p.id; } }
  }

  /** An id not present: the process goes at the end, after the unchanged list. */
  lemma UpsertAppendsNew(s: Processes, p: DownloadingProcess)
    requires !HasId(s, p.id)
    ensures Upserted(s, p) == s + [p]
  {
  }

  /** An upsert leaves the process in the list, adds a row only for a new id, and
      keeps every entry of another id. */
  lemma UpsertedSpec(s: Processes, p: DownloadingProcess)
    ensures var r := Upserted(s, p);
      && p in r && HasId(r, p.id)
      && |r| == (if HasId(s, p.id) then |s| else |s| + 1)
      && (forall q :: q in s && q.id != p.id ==> q in r)
  {
    var r := Upserted(s, p);
    match FirstIndexOf(s, p.id)
    case Some(i) =>
      UpsertReplacesFirstMatch(s, p, i);
      assert r[i] == p;
      forall q | q in s && q.id != p.id ensures q in r {
        var j :| 0 <= j < |s| && s[j] == q;
        assert r[j] == q;
      }
    case None =>
      UpsertAppendsNew(s, p);
      assert r[|s|] == p;
      forall q | q in s && q.id != p.id ensures q in r {
        var j :| 0 <= j < |s| && s[j] == q;
        assert r[j] == q;
      }
  }

  /** After an upsert, the entry found for the id is the process just given. */
  lemma {:induction false} UpsertedIsFound(s: Processes, p: DownloadingProcess)
    ensures FirstIndexOf(Upserted(s, p), p.id).Some?
    ensures Upserted(s, p)[FirstIndexOf(Upserted(s, p), p.id).value] == p
  {
    var t := Upserted(s, p);
    match FirstIndexOf(s, p.id)
    case Some(i) =>
      UpsertReplacesFirstMatch(s, p, i);
      FirstIndexIs(t, p.id, i);
    case None =>
      assert t == s + [p];
      assert forall j :: 0 <= j < |s| ==> t[j] == s[j];
      FirstIndexIs(t, p.id, |s|);
  }

  /** The first index is determined by its two defining facts. */
  lemma FirstIndexIs(s: Processes, id: string, i: nat)
    requires i < |s| && s[i].id == id
    requires forall j :: 0 <= j < i ==> s[j].id != id
    ensures FirstIndexOf(s, id) == Some(i)
  {
    var f := FirstIndexOf(s, id);
    assert HasId(s, id) by { assert s[i].id == id; }
  }

  /** Upserts keep ids distinct. */
  lemma {:induction false} UpsertKeepsIdsUnique(s: Processes, p: DownloadingProcess)
    requires IdsUnique(s)
    ensures IdsUnique(Upserted(s, p))
  {
    match FirstIndexOf(s, p.id)
    case Some(i) =>
      var t := s[i := p];
      assert forall j :: 0 <= j < |s| ==> t[j].id == s[j].id;
    case None =>
      var t := s + [p];
      assert forall j :: 0 <= j < |s| ==> t[j] == s[j] && s[j].id != p.id;
  }

  /** An upsert of an id that had at most one entry leaves exactly one. */
  lemma {:induction false} UpsertKeepsAtMostOne(s: Processes, p: DownloadingProcess)
    requires AtMostOne(s, p.id)
    ensures AtMostOne(Upserted(s, p), p.id) && HasId(Upserted(s, p), p.id)
  {
    UpsertedIsFound(s, p);
    match FirstIndexOf(s, p.id)
    case Some(i) =>
      var t := s[i := p];
      assert forall j :: 0 <= j < |s| ==> t[j].id == s[j].id;
    case None =>
      var t := s + [p];
      assert forall j :: 0 <= j < |s| ==> t[j] == s[j] && s[j].id != p.id;
  }

  /** An upsert touches nothing but the entries of its own id: removing that id
      afterwards gives what removing it before gives. */
  lemma {:induction false} UpsertOnlyTouchesItsId(s: Processes, p: DownloadingProcess)
    ensures Removed(Upserted(s, p), p.id) == Removed(s, p.id)
  {
    match FirstIndexOf(s, p.id)
    case Some(i) => RemovedIgnoresSameIdUpdate(s, i, p);
    case None =>
      RemovedDistributes(s, [p], p.id);
      assert Removed([p], p.id) == Removed([p][1..], p.id);
  }

  lemma {:induction false} RemovedIgnoresSameIdUpdate(s: Processes, i: nat, p: DownloadingProcess)
    requires i < |s| && s[i].id == p.id
    ensures Removed(s[i := p], p.id) == Removed(s, p.id)
    decreases |s|
  {
    if i > 0 {
      assert s[i := p][1..] == s[1..][i - 1 := p];
      RemovedIgnoresSameIdUpdate(s[1..], i - 1, p);
    } else {
      assert s[i := p][1..] == s[1..];
    }
  }

  lemma {:induction false} RemovedDistributes(a: Processes, b: Processes, id: string)
    ensures Removed(a + b, id) == Removed(a, id) + Removed(b, id)
    decreases |a|
  {
    if |a| > 0 {
      assert (a + b)[1..] == a[1..] + b;
      RemovedDistributes(a[1..], b, id);
    } else {
      assert a + b == b;
    }
  }

  // ---- remove ----

  /** After a removal no entry has the id; an entry survives exactly when it was there
      with another id; the survivors keep their order. */
  lemma {:induction false} RemovedSpec(s: Processes, id: string)
    ensures !HasId(Removed(s, id), id)
    ensures forall q :: q in Removed(s, id) <==> q in s && q.id != id
    ensures IsSubsequence(Removed(s, id), s)
    decreases |s|
  {
    if |s| > 0 {
      RemovedSpec(s[1..], id);
      var r := Removed(s[1..], id);
      assert forall q :: q in s <==> q == s[0] || q in s[1..];
      if s[0].id != id {
        var t := [s[0]] + r;
        assert t[1..] == r;
        assert forall j :: 1 <= j < |t| ==> t[j] == r[j - 1];
      }
    }
  }

  /** A removal keeps every entry of another id as many times as it occurred, and no
      entry of the id. */
  lemma {:induction false} RemovedCounts(s: Processes, id: string)
    ensures forall q :: multiset(Removed(s, id))[q] == if q.id == id then 0 else multiset(s)[q]
    decreases |s|
  {
    if |s| > 0 {
      RemovedCounts(s[1..], id);
      assert s == [s[0]] + s[1..];
      assert multiset(s) == multiset{s[0]} + multiset(s[1..]);
      if s[0].id != id {
        assert multiset(Removed(s, id)) == multiset{s[0]} + multiset(Removed(s[1..], id));
      }
    }
  }

  /** Removing an id that is absent changes nothing. */
  lemma {:induction false} RemovedAbsent(s: Processes, id: string)
    requires !HasId(s, id)
    ensures Removed(s, id) == s
    decreases |s|
  {
    if |s| > 0 {
      assert s[0].id != id;
      assert !HasId(s[1..], id) by {
        forall j | 0 <= j < |s[1..]| ensures s[1..][j].id != id { assert s[1..][j] == s[j + 1]; }
      }
      RemovedAbsent(s[1..], id);
      assert s == [s[0]] + s[1..];
    }
  }

  lemma IdsUniqueTail(s: Processes)
    requires |s| > 0 && IdsUnique(s)
    ensures IdsUnique(s[1..])
  {
    forall i, j | 0 <= i < j < |s[1..]| ensures s[1..][i].id != s[1..][j].id {
      assert s[1..][i] == s[i + 1] && s[1..][j] == s[j + 1];
    }
  }

  lemma IdsUniqueCons(x: DownloadingProcess, r: Processes)
    requires IdsUnique(r) && !HasId(r, x.id)
    ensures IdsUnique([x] + r)
  {
    var t := [x] + r;
    forall i, j | 0 <= i < j < |t| ensures t[i].id != t[j].id {
      assert t[j] == r[j - 1];
      if i > 0 {
        assert t[i] == r[i - 1];
      }
    }
  }

  /** Removals keep ids distinct. */
  lemma {:induction false} RemovedKeepsIdsUnique(s: Processes, id: string)
    requires IdsUnique(s)
    ensures IdsUnique(Removed(s, id))
    decreases |s|
  {
    if |s| > 0 {
      IdsUniqueTail(s);
      RemovedKeepsIdsUnique(s[1..], id);
      if s[0].id != id {
        var r := Removed(s[1..], id);
        RemovedSpec(s[1..], id);
        assert !HasId(r, s[0].id) by {
          forall k | 0 <= k < |r| ensures r[k].id != s[0].id {
            assert r[k] in r;
            var m :| 0 <= m < |s[1..]| && s[1..][m] == r[k];
            assert s[m + 1] == r[k];
          }
        }
        IdsUniqueCons(s[0], r);
      }
    }
  }

  // ---- one download attempt ----

  /** Any number of upserts for one id followed by the removal of that id leave the
      list as removing the id alone would: an attempt leaves no trace of itself. */
  lemma {:induction false} UpsertsThenRemove(s: Processes, records: seq<DownloadingProcess>, id: string)
    requires forall k :: 0 <= k < |records| ==> records[k].id == id
    ensures Removed(UpsertAll(s, records), id) == Removed(s, id)
    decreases |records|
  {
    if |records| > 0 {
      var init := records[..|records| - 1];
      UpsertsThenRemove(s, init, id);
      UpsertOnlyTouchesItsId(UpsertAll(s, init), records[|records| - 1]);
    }
  }

  /** A job that had at most one row has exactly one after its progress callbacks, and
      that row is the latest callback's record. */
  lemma {:induction false} OneRowPerJob(s: Processes, records: seq<DownloadingProcess>, id: string)
    requires |records| > 0 && AtMostOne(s, id)
    requires forall k :: 0 <= k < |records| ==> records[k].id == id
    ensures AtMostOne(UpsertAll(s, records), id) && HasId(UpsertAll(s, records), id)
    ensures var t := UpsertAll(s, records);
      FirstIndexOf(t, id).Some? && t[FirstIndexOf(t, id).value] == records[|records| - 1]
  {
    AtMostOneThroughUpserts(s, records[..|records| - 1], id);
    UpsertKeepsAtMostOne(UpsertAll(s, records[..|records| - 1]), records[|records| - 1]);
    UpsertedIsFound(UpsertAll(s, records[..|records| - 1]), records[|records| - 1]);
  }

  lemma {:induction false} AtMostOneThroughUpserts(s: Processes, records: seq<DownloadingProcess>, id: string)
    requires AtMostOne(s, id)
    requires forall k :: 0 <= k < |records| ==> records[k].id == id
    ensures AtMostOne(UpsertAll(s, records), id)
    decreases |records|
  {
    if |records| > 0 {
      AtMostOneThroughUpserts(s, records[..|records| - 1], id);
      UpsertKeepsAtMostOne(UpsertAll(s, records[..|records| - 1]), records[|records| - 1]);
    }
  }

  lemma {:induction false} SubsequenceReflexive(a: Processes)
    ensures IsSubsequence(a, a)
    decreases |a|
  {
    if |a| > 0 {
      SubsequenceReflexive(a[1..]);
    }
  }

  /** Deleting entries twice is deleting entries once. */
  lemma {:induction false} SubsequenceTransitive(a: Processes, b: Processes, c: Processes)
    requires IsSubsequence(a, b) && IsSubsequence(b, c)
    ensures IsSubsequence(a, c)
    decreases |c|
  {
    if |a| > 0 {
      if b[0] == c[0] && IsSubsequence(b[1..], c[1..]) {
        if a[0] == b[0] && IsSubsequence(a[1..], b[1..]) {
          SubsequenceTransitive(a[1..], b[1..], c[1..]);
        } else {
          SubsequenceTransitive(a, b[1..], c[1..]);
        }
      } else {
        SubsequenceTransitive(a, b, c[1..]);
      }
    }
  }

  /** The upserts and publications of the first `i + 1` records are those of the
      first `i` and then one more. */
  lemma UpsertOneMore(s: Processes, records: seq<DownloadingProcess>, i: nat)
    requires i < |records|
    ensures UpsertAll(s, records[..i + 1]) == Upserted(UpsertAll(s, records[..i]), records[i])
    ensures UpsertTrace(s, records[..i + 1]) == UpsertTrace(s, records[..i]) + [UpsertAll(s, records[..i + 1])]
  {
    assert records[..i + 1][..i] == records[..i];
  }

  /** `currentProcesses` and the observer of a downloader. */
  class ProcessRegistry {
    /** `currentProcesses` */
    var processes: Processes
    /** Whether the `([DownloadingProcess]) -> Void` callback is set. */
    var observing: bool
    /** Every list handed to that callback, oldest first. */
    var published: seq<Processes>

    constructor()
      ensures processes == [] && !observing && published == []
    {
      processes := [];
      observing := false;
      published := [];
    }

    /** Storing the caller's callback. */
    method SetObserver()
      modifies this
      ensures observing
      ensures processes == old(processes) && published == old(published)
    {
      observing := true;
    }

    /** `updateDownloadingProcess(_:)` */
    method Update(p: DownloadingProcess)
      modifies this
      ensures processes == Upserted(old(processes), p)
      ensures published == old(published) + Publication(observing, processes)
      ensures observing == old(observing)
    {
      var found := FirstIndexOf(processes, p.id);
      match found {
        case Some(i) => processes := processes[i := p];
        case None => processes := processes + [p];
      }
      if observing {
        published := published + [processes];
      }
    }

    /** `removeDownloadingProcess(_:)` */
    method Remove(p: DownloadingProcess)
      modifies this
      ensures processes == Removed(old(processes), p.id)
      ensures published == old(published) + Publication(observing, processes)
      ensures observing == old(observing)
    {
      processes := Removed(processes, p.id);
      if observing {
        published := published + [processes];
      }
    }

    /** The progress callbacks of one attempt, each an `updateDownloadingProcess`. */
    method UpdateEach(records: seq<DownloadingProcess>)
      modifies this
      ensures processes == UpsertAll(old(processes), records)
      ensures published == old(published) + (if observing then UpsertTrace(old(processes), records) else [])
      ensures observing == old(observing)
    {
      var i := 0;
      while i < |records|
        invariant 0 <= i <= |records|
        invariant observing == old(observing)
        invariant processes == UpsertAll(old(processes), records[..i])
        invariant published == old(published) + (if observing then UpsertTrace(old(processes), records[..i]) else [])
      {
        UpsertOneMore(old(processes), records, i);
        Update(records[i]);
        i := i + 1;
      }
      assert records[..i] == records;
    }
  }
}
