/**
 * The in-memory repository handle (`ResourceRepo`) and the backend that hands a repository
 * to the protocol handlers (`ResourceBackend`).
 */
module Repo {
  import opened Wrappers

  /** An object given to the object store; the store itself belongs to dulwich. */
  datatype GitObject = GitObject(sha: string, raw: string)

  /** The working-tree index a non-bare repository would have. */
  datatype Index = Index(entries: seq<string>)

  datatype RepoError = NoIndexPresent

  /** `files.get(path, None)`: the stored contents, or `None` for a path never written. */
  function Lookup(files: map<string, string>, path: string): (r: Option<string>)
    ensures r.Some? <==> path in files
    ensures r.Some? ==> r.value == files[path]
  {
    if path in files then Some(files[path]) else None
  }

  /**
   * Storing a file and reading it back gives exactly what was stored, every other path
   * reads as before, and a stored empty file is told apart from a missing one.
   */
  lemma NamedFileRoundTrip(files: map<string, string>, path: string, contents: string, other: string)
    ensures Lookup(files[path := contents], path) == Some(contents)
    ensures other != path ==> Lookup(files[path := contents], other) == Lookup(files, other)
    ensures path !in files ==> Lookup(files, path) == None != Lookup(files[path := ""], path)
  {
  }

  class ResourceRepo {
    var namedFiles: map<string, string>
    var refs: map<string, string>
    var objectStore: seq<GitObject>
    var bare: bool

    /** A fresh repository: empty object store, empty refs, no named files, bare. */
    constructor ()
      ensures namedFiles == map[] && refs == map[] && objectStore == [] && bare
    {
      namedFiles := map[];
      refs := map[];
      objectStore := [];
      bare := true;
    }

    /** `_put_named_file`: store or replace the contents at `path`; no other path changes. */
    method PutNamedFile(path: string, contents: string)
      modifies this`namedFiles
      ensures namedFiles == old(namedFiles)[path := contents]
    {
      namedFiles := namedFiles[path := contents];
    }

    /** `get_named_file`: the contents to read, or `None` when no file was stored at `path`. */
    function GetNamedFile(path: string): (r: Option<string>)
      reads this
      ensures r.Some? <==> path in namedFiles
      ensures r.Some? ==> r.value == namedFiles[path]
    {
      Lookup(namedFiles, path)
    }

    /** `open_index` always fails: the repository is bare and has no index. */
    method OpenIndex() returns (r: Result<Index, RepoError>)
      ensures r == Failure(NoIndexPresent)
    {
      r := Failure(NoIndexPresent);
    }

    /**
     * `init_bare`: a new repository holding every given object and exactly the given refs,
     * marked bare. `_init_files`, inherited from dulwich, then writes the default control
     * files through `_put_named_file`; their names and contents are the parameter
     * `controlFiles`.
     */
    static method InitBare(objects: seq<GitObject>, refs: map<string, string>, controlFiles: map<string, string>)
      returns (repo: ResourceRepo)
      ensures fresh(repo)
      ensures repo.objectStore == objects
      ensures repo.refs == refs
      ensures repo.namedFiles == controlFiles
      ensures repo.bare
    {
      repo := new ResourceRepo();
      for i := 0 to |objects|
        invariant repo.objectStore == objects[..i]
        invariant repo.refs == map[] && repo.namedFiles == map[] && repo.bare
      {
        repo.objectStore := repo.objectStore + [objects[i]];
      }
      assert objects[..|objects|] == objects;
      var pending := refs.Keys;
      while pending != {}
        invariant pending <= refs.Keys
        invariant repo.refs == map name | name in refs.Keys - pending :: refs[name]
        invariant repo.objectStore == objects && repo.namedFiles == map[] && repo.bare
        decreases pending
      {
        var name :| name in pending;
        repo.refs := repo.refs[name := refs[name]];
        pending := pending - {name};
      }
      var unwritten := controlFiles.Keys;
      while unwritten != {}
        invariant unwritten <= controlFiles.Keys
        invariant repo.namedFiles == map path | path in controlFiles.Keys - unwritten :: controlFiles[path]
        invariant repo.objectStore == objects && repo.refs == refs && repo.bare
        decreases unwritten
      {
        var path :| path in unwritten;
        repo.PutNamedFile(path, controlFiles[path]);
        unwritten := unwritten - {path};
      }
    }
  }

  /** Stand-in for dulwich's `MemoryRepo`, the repository the backend actually serves. */
  class MemoryRepo {
  }

  class ResourceBackend {
    const repo: MemoryRepo

    constructor (repo: MemoryRepo)
      ensures this.repo == repo
    {
      this.repo := repo;
    }

    /** `open_repository`: every path resolves to the one shared repository. */
    method OpenRepository(path: string) returns (r: MemoryRepo)
      ensures r == repo
    {
      r := repo;
    }
  }
}
