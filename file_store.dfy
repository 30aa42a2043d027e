/** The part of `FileManager` and `Data` I/O the core uses, over an abstract store
    from path to bytes. Which operations fail is fixed when the store is built. */
module Files {
  import opened Wrappers
  import opened Errors

  type Bytes = seq<bv8>

  /** `urls(for: .documentDirectory, in: .userDomainMask)[0]`, as a fixed path. */
  const DocumentsDir: string := "Documents"

  /** `urls(for: .musicDirectory, in: .userDomainMask)[0]`, as a fixed path. */
  const MusicDir: string := "Music"

  /** `URL.appendingPathComponent` */
  function Join(dir: string, name: string): string {
    dir + "/" + name
  }

  /** `<dir>/<stem>.m4a`, the path every saved track lives at. */
  function AudioPath(dir: string, stem: string): (r: string)
    ensures |r| == |dir| + |stem| + 5
    ensures r[..|dir| + 1] == dir + "/" && r[|dir| + 1..|r| - 4] == stem && r[|r| - 4..] == ".m4a"
  {
    Join(dir, stem + ".m4a")
  }

  /** Different stems give different paths in the same directory. */
  lemma AudioPathInjective(dir: string, a: string, b: string)
    ensures AudioPath(dir, a) == AudioPath(dir, b) <==> a == b
  {
    if AudioPath(dir, a) == AudioPath(dir, b) {
      var r := AudioPath(dir, a);
      assert a == r[|dir| + 1..|r| - 4] == b;
    }
  }

  /** `a` and `b` hold the same files everywhere except, perhaps, at `path`. */
  ghost predicate AgreeExcept(a: map<string, Bytes>, b: map<string, Bytes>, path: string) {
    forall p :: p != path ==> (p in a <==> p in b) && (p in a ==> a[p] == b[p])
  }

  lemma AgreeExceptTrans(a: map<string, Bytes>, b: map<string, Bytes>, c: map<string, Bytes>, path: string)
    requires AgreeExcept(a, b, path) && AgreeExcept(b, c, path)
    ensures AgreeExcept(a, c, path)
  {
  }

  /** The file store. `unremovable` and `unwritable` are the paths at which
      `removeItem` and `write` fail; `canCreateDirectories` says whether
      `createDirectory` succeeds. */
  class FileSystem {
    var files: map<string, Bytes>
    var directories: set<string>
    const unremovable: set<string>
    const unwritable: set<string>
    const canCreateDirectories: bool

    constructor(files0: map<string, Bytes>, unremovable0: set<string>, unwritable0: set<string>, canCreate: bool)
      ensures files == files0 && directories == {}
      ensures unremovable == unremovable0 && unwritable == unwritable0 && canCreateDirectories == canCreate
    {
      files := files0;
      directories := {};
      unremovable := unremovable0;
      unwritable := unwritable0;
      canCreateDirectories := canCreate;
    }

    /** `fileExists(atPath:)` */
    predicate Exists(path: string)
      reads this
    {
      path in files
    }

    /** `Data(contentsOf:)`: the bytes at `path`, or an error naming it. */
    function Read(path: string): (r: Result<Bytes, Error>)
      reads this
      ensures r.Ok? <==> Exists(path)
      ensures r.Ok? ==> r.value == files[path]
      ensures r.Err? ==> r.error == FileError(path)
    {
      if path in files then Ok(files[path]) else Err(FileError(path))
    }

    /** `createDirectory(at:withIntermediateDirectories: true)` */
    method CreateDirectory(dir: string) returns (r: Outcome<Error>)
      modifies this
      ensures r.Pass? <==> canCreateDirectories
      ensures r.Pass? ==> directories == old(directories) + {dir}
      ensures r.Fail? ==> directories == old(directories) && r.error == FileError(dir)
      ensures files == old(files)
    {
      if canCreateDirectories {
        directories := directories + {dir};
        r := Pass;
      } else {
        r := Fail(FileError(dir));
      }
    }

    /** `removeItem(at:)`: fails when nothing is there or the path is protected. */
    method RemoveItem(path: string) returns (r: Outcome<Error>)
      modifies this
      ensures r.Pass? <==> path in old(files) && path !in unremovable
      ensures r.Pass? ==> files == old(files) - {path}
      ensures r.Fail? ==> files == old(files) && r.error == FileError(path)
      ensures directories == old(directories)
    {
      if path in files && path !in unremovable {
        files := files - {path};
        r := Pass;
      } else {
        r := Fail(FileError(path));
      }
    }

    /** `Data.write(to:)`: replaces whatever is at `path`. */
    method Write(path: string, data: Bytes) returns (r: Outcome<Error>)
      modifies this
      ensures r.Pass? <==> path !in unwritable
      ensures r.Pass? ==> files == old(files)[path := data]
      ensures r.Fail? ==> files == old(files) && r.error == FileError(path)
      ensures directories == old(directories)
    {
      if path !in unwritable {
        files := files[path := data];
        r := Pass;
      } else {
        r := Fail(FileError(path));
      }
    }

    /** The step both `saveFile`s of the app build on: remove an existing file at
        `path`, then write. Afterwards `path` holds exactly `data` and no other path
        changed. A failed removal changes nothing; a failed write after a removal
        leaves `path` empty. */
    method Overwrite(path: string, data: Bytes) returns (r: Outcome<Error>)
      modifies this
      ensures r.Pass? <==> (path in old(files) ==> path !in unremovable) && path !in unwritable
      ensures r.Pass? ==> files == old(files)[path := data]
      ensures r.Fail? ==> r.error == FileError(path)
      ensures r.Fail? ==> files == (if path in old(files) && path !in unremovable then old(files) - {path} else old(files))
      ensures directories == old(directories)
    {
      if Exists(path) {
        r := RemoveItem(path);
        if r.Fail? {
          return;
        }
      }
      r := Write(path, data);
      if r.Pass? {
        assert files == old(files)[path := data];
      }
    }
  }
}
