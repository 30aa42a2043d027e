/** The SwiftData store of `DownloadedAudio` records (`SwiftDataManager` and
    `SwiftDataAudioRepoImpl`, whose `save`, `fetchAllDownloadedAudio` and
    `deleteDownloadedAudio` are the same). Whether `context.save()` throws is fixed
    when the store is built. */
module AudioStore {
  import opened Wrappers
  import opened Errors
  import opened DownloadedAudios

  /** The records except those with the given id, in their order. */
  function WithoutId(s: seq<DownloadedAudio>, id: string): (r: seq<DownloadedAudio>)
    ensures forall a :: a in r <==> a in s && a.id != id
    ensures |r| <= |s|
    decreases |s|
  {
    if |s| == 0 then []
    else if s[0].id == id then WithoutId(s[1..], id)
    else [s[0]] + WithoutId(s[1..], id)
  }

  /** Every record of another id is kept as many times as it occurred. */
  lemma {:induction false} WithoutIdCounts(s: seq<DownloadedAudio>, id: string)
    ensures forall a :: multiset(WithoutId(s, id))[a] == if a.id == id then 0 else multiset(s)[a]
    decreases |s|
  {
    if |s| > 0 {
      WithoutIdCounts(s[1..], id);
      assert s == [s[0]] + s[1..];
      assert multiset(s) == multiset{s[0]} + multiset(s[1..]);
      if s[0].id != id {
        assert multiset(WithoutId(s, id)) == multiset{s[0]} + multiset(WithoutId(s[1..], id));
      }
    }
  }

  class AudioRepository {
    /** The stored records, in insertion order. */
    var audios: seq<DownloadedAudio>
    /** `context.save()` throws after an insert. */
    const rejectsSaves: bool
    /** `context.save()` throws after a delete. */
    const rejectsDeletes: bool

    constructor(audios0: seq<DownloadedAudio>, rejectsSaves0: bool, rejectsDeletes0: bool)
      ensures audios == audios0 && rejectsSaves == rejectsSaves0 && rejectsDeletes == rejectsDeletes0
    {
      audios := audios0;
      rejectsSaves := rejectsSaves0;
      rejectsDeletes := rejectsDeletes0;
    }

    /** `fetchAllDownloadedAudio()` */
    function FetchAll(): (r: seq<DownloadedAudio>)
      reads this
      ensures r == audios
    {
      audios
    }

    /** `save(_:)`: insert, then persist; a failed persist is taken to leave the records
        as they were. */
    method Save(a: DownloadedAudio) returns (r: Outcome<Error>)
      modifies this
      ensures r.Pass? <==> !rejectsSaves
      ensures r.Pass? ==> audios == old(audios) + [a]
      ensures r.Fail? ==> audios == old(audios) && r.error == Foreign("ModelContext.save")
    {
      if rejectsSaves {
        r := Fail(Foreign("ModelContext.save"));
      } else {
        audios := audios + [a];
        r := Pass;
      }
    }

    /** `deleteDownloadedAudio(_:)`: the record leaves the store; a failed persist is
        taken to leave the records as they were. */
    method Delete(a: DownloadedAudio) returns (r: Outcome<Error>)
      modifies this
      ensures r.Pass? <==> !rejectsDeletes
      ensures r.Pass? ==> audios == WithoutId(old(audios), a.id)
      ensures r.Fail? ==> audios == old(audios) && r.error == Foreign("ModelContext.save")
    {
      if rejectsDeletes {
        r := Fail(Foreign("ModelContext.save"));
      } else {
        audios := WithoutId(audios, a.id);
        r := Pass;
      }
    }
  }
}
