/** `SwiftDataSavedAudioUseCaseImpl`: saving, listing and deleting the records of
    saved tracks, where deleting also removes the track's audio file. */
module SavedAudio {
  import opened Wrappers
  import opened Errors
  import opened Files
  import opened DownloadedAudios
  import opened AudioStore

  /** `getLocalPath(for:)` on the files `files`: `<title>.m4a` in the documents
      directory when it exists, `URLError(.fileDoesNotExist)` otherwise. */
  function LocalPath(files: map<string, Bytes>, a: DownloadedAudio): (r: Result<string, Error>)
    ensures r.Ok? <==> AudioPath(DocumentsDir, a.title) in files
    ensures r.Ok? ==> r.value == AudioPath(DocumentsDir, a.title)
    ensures r.Err? ==> r.error == Url(FileDoesNotExist)
  {
    var fileURL := AudioPath(DocumentsDir, a.title);
    if fileURL !in files then Err(Url(FileDoesNotExist)) else Ok(fileURL)
  }

  /** The path lookup the rest of the app needs: the current name `<id>.m4a`, under
      which tracks are saved, and then the name `<title>.m4a` of earlier versions. */
  function ProbedLocalPath(files: map<string, Bytes>, a: DownloadedAudio): (r: Result<string, Error>)
    ensures r.Ok? <==> AudioPath(DocumentsDir, a.id) in files || AudioPath(DocumentsDir, a.title) in files
    ensures r.Ok? ==> r.value in files
    ensures r.Ok? ==> r.value == AudioPath(DocumentsDir, a.id) || r.value == AudioPath(DocumentsDir, a.title)
    ensures AudioPath(DocumentsDir, a.id) in files ==> r == Ok(AudioPath(DocumentsDir, a.id))
    ensures r.Err? ==> r.error == Url(FileDoesNotExist)
  {
    var current := AudioPath(DocumentsDir, a.id);
    if current in files then Ok(current) else LocalPath(files, a)
  }

  /** A track saved under its id, whose title is different, is not found by
      `getLocalPath` unless a file named after its title happens to exist. */
  lemma TitlePathMissesIdNamedFile(files: map<string, Bytes>, a: DownloadedAudio)
    requires AudioPath(DocumentsDir, a.id) in files && AudioPath(DocumentsDir, a.title) !in files
    ensures a.id != a.title
    ensures LocalPath(files, a) == Err(Url(FileDoesNotExist))
    ensures ProbedLocalPath(files, a) == Ok(AudioPath(DocumentsDir, a.id))
  {
  }

  /** The concrete case: a record with id "A1" titled "Song", whose file was saved as
      `Documents/A1.m4a`, cannot be found, and so cannot be deleted. */
  lemma TitlePathMissesIdNamedFileExample()
    ensures var a := NewDownloadedAudio("A1", 0, "Song", "https://youtu.be/x");
      var files: map<string, Bytes> := map[AudioPath(DocumentsDir, "A1") := []];
      && LocalPath(files, a) == Err(Url(FileDoesNotExist))
      && ProbedLocalPath(files, a) == Ok("Documents/A1.m4a")
  {
    var a := NewDownloadedAudio("A1", 0, "Song", "https://youtu.be/x");
    var files: map<string, Bytes> := map[AudioPath(DocumentsDir, "A1") := []];
    assert AudioPath(DocumentsDir, "A1") == "Documents/A1.m4a";
    assert AudioPath(DocumentsDir, "Song") == "Documents/Song.m4a";
    assert "Documents/Song.m4a" != "Documents/A1.m4a" by {
      assert "Documents/Song.m4a"[10] != "Documents/A1.m4a"[10];
    }
    assert AudioPath(DocumentsDir, a.title) !in files;
  }

  /** For tracks whose file carries the title, as the domain downloader saves them,
      the two lookups agree whenever no file carries the id. */
  lemma ProbingKeepsTitleNamedFiles(files: map<string, Bytes>, a: DownloadedAudio)
    requires AudioPath(DocumentsDir, a.id) !in files
    ensures ProbedLocalPath(files, a) == LocalPath(files, a)
  {
  }

  class SavedAudioUseCase {
    /** `repository` */
    const repository: AudioRepository
    /** `FileManager.default` */
    const fs: FileSystem

    constructor(repository0: AudioRepository, fs0: FileSystem)
      ensures repository == repository0 && fs == fs0
    {
      repository := repository0;
      fs := fs0;
    }

    /** `saveAudio(_:)`: handed to the repository as it is. */
    method SaveAudio(a: DownloadedAudio) returns (r: Outcome<Error>)
      modifies repository
      ensures r.Pass? <==> !repository.rejectsSaves
      ensures r.Pass? ==> repository.audios == old(repository.audios) + [a]
      ensures r.Fail? ==> repository.audios == old(repository.audios) && r.error == Foreign("ModelContext.save")
    {
      r := repository.Save(a);
    }

    /** `getSavedAudios()`: the repository's records, as they are. */
    method GetSavedAudios() returns (r: seq<DownloadedAudio>)
      ensures r == repository.audios
    {
      r := repository.FetchAll();
    }

    /** `getLocalPath(for:)` on the current files. */
    function GetLocalPath(a: DownloadedAudio): (r: Result<string, Error>)
      reads fs
      ensures r.Ok? <==> fs.Exists(AudioPath(DocumentsDir, a.title))
      ensures r == LocalPath(fs.files, a)
    {
      LocalPath(fs.files, a)
    }

    /** `deleteAudio(_:)`: find `<title>.m4a`, remove it, then delete the record. A
        missing file or a failed removal leaves both the files and the records as they
        were; a failed record deletion comes after the file is already gone. */
    method DeleteAudio(a: DownloadedAudio) returns (r: Outcome<Error>)
      modifies fs, repository
      ensures var path := AudioPath(DocumentsDir, a.title);
        && (path !in old(fs.files) ==>
              r == Fail(Url(FileDoesNotExist)) && fs.files == old(fs.files) && repository.audios == old(repository.audios))
        && (path in old(fs.files) && path in fs.unremovable ==>
              r == Fail(FileError(path)) && fs.files == old(fs.files) && repository.audios == old(repository.audios))
        && (path in old(fs.files) && path !in fs.unremovable ==>
              && fs.files == old(fs.files) - {path}
              && (r.Pass? <==> !repository.rejectsDeletes)
              && (r.Pass? ==> repository.audios == WithoutId(old(repository.audios), a.id))
              && (r.Fail? ==> repository.audios == old(repository.audios)))
      ensures r.Pass? ==>
        AudioPath(DocumentsDir, a.title) !in fs.files && forall b :: b in repository.audios ==> b.id != a.id
      ensures fs.directories == old(fs.directories)
    {
      var localURL := GetLocalPath(a);
      if localURL.Err? {
        return Fail(localURL.error);
      }
      r := fs.RemoveItem(localURL.value);
      if r.Fail? {
        return;
      }
      r := repository.Delete(a);
    }

    /** The deletion the rest of the app needs: as `deleteAudio`, but the file is looked
        up by `ProbedLocalPath`, so a track saved under its id can be deleted. */
    method DeleteAudioProbing(a: DownloadedAudio) returns (r: Outcome<Error>)
      modifies fs, repository
      ensures var found := ProbedLocalPath(old(fs.files), a);
        && (found.Err? ==>
              r == Fail(Url(FileDoesNotExist)) && fs.files == old(fs.files) && repository.audios == old(repository.audios))
        && (found.Ok? && found.value in fs.unremovable ==>
              r == Fail(FileError(found.value)) && fs.files == old(fs.files) && repository.audios == old(repository.audios))
        && (found.Ok? && found.value !in fs.unremovable ==>
              && fs.files == old(fs.files) - {found.value}
              && (r.Pass? <==> !repository.rejectsDeletes)
              && (r.Pass? ==> repository.audios == WithoutId(old(repository.audios), a.id))
              && (r.Fail? ==> repository.audios == old(repository.audios)))
      ensures AudioPath(DocumentsDir, a.id) in old(fs.files) && AudioPath(DocumentsDir, a.id) !in fs.unremovable ==>
        fs.files == old(fs.files) - {AudioPath(DocumentsDir, a.id)}
      ensures r.Pass? ==> forall b :: b in repository.audios ==> b.id != a.id
      ensures fs.directories == old(fs.directories)
    {
      var localURL := ProbedLocalPath(fs.files, a);
      if localURL.Err? {
        return Fail(localURL.error);
      }
      r := fs.RemoveItem(localURL.value);
      if r.Fail? {
        return;
      }
      r := repository.Delete(a);
    }
  }
}
