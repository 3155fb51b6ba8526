/** File-backed session persistence: one JSON file per session id in the storage
    directory. The directory is modelled as a map from file path to the snapshot the file
    holds; serialisation is taken to round-trip. */
module Store {
  import opened Wrappers
  import opened Models

  /** `storage_path / f"{session_id}.json"`. */
  function FilePath(dir: string, id: string): string {
    dir + "/" + id + ".json"
  }

  /** Different ids never share a file. */
  lemma FilePathInjective(dir: string, a: string, b: string)
    requires FilePath(dir, a) == FilePath(dir, b)
    ensures a == b
  {
    var p := FilePath(dir, a);
    assert p[|dir| + 1..|p| - 5] == a;
    assert FilePath(dir, b)[|dir| + 1..|p| - 5] == b;
  }

  /** What loading `id` from the directory `files` gives. */
  function Lookup(files: map<string, SessionData>, dir: string, id: string): Option<SessionData> {
    if FilePath(dir, id) in files then Some(files[FilePath(dir, id)]) else None
  }

  /** Saving a snapshot makes it what its id loads, and leaves every other id as it was. */
  lemma SaveThenLookup(files: map<string, SessionData>, dir: string, s: SessionData, id: string)
    ensures Lookup(files[FilePath(dir, s.sessionId) := s], dir, id)
         == if id == s.sessionId then Some(s) else Lookup(files, dir, id)
  {
    if id != s.sessionId && FilePath(dir, id) == FilePath(dir, s.sessionId) {
      FilePathInjective(dir, id, s.sessionId);
    }
  }

  /** Deleting an id makes it load as None and leaves every other id as it was. */
  lemma DeleteThenLookup(files: map<string, SessionData>, dir: string, gone: string, id: string)
    ensures Lookup(files - {FilePath(dir, gone)}, dir, id)
         == if id == gone then None else Lookup(files, dir, id)
  {
    if id != gone && FilePath(dir, id) == FilePath(dir, gone) {
      FilePathInjective(dir, id, gone);
    }
  }

  /** A second save to the same file replaces the first. */
  lemma SaveTwice(files: map<string, SessionData>, p: string, a: SessionData, b: SessionData)
    ensures files[p := a][p := b] == files[p := b]
  {
  }

  class SessionStore {
    const storagePath: string
    var files: map<string, SessionData>

    /** Every file is named after the id of the snapshot it holds. */
    ghost predicate Valid()
      reads this
    {
      forall p :: p in files ==> p == FilePath(storagePath, files[p].sessionId)
    }

    /** Opening the store over a directory that already holds `existing`. */
    constructor(storagePath: string, existing: map<string, SessionData>)
      requires forall p :: p in existing ==> p == FilePath(storagePath, existing[p].sessionId)
      ensures this.storagePath == storagePath && files == existing
      ensures Valid()
    {
      this.storagePath := storagePath;
      files := existing;
    }

    function Get(id: string): Option<SessionData>
      reads this
    {
      Lookup(files, storagePath, id)
    }

    /** `save(session)`: the file for its id is (over)written with the snapshot. */
    method Save(s: SessionData)
      requires Valid()
      modifies this
      ensures Valid()
      ensures files == old(files)[FilePath(storagePath, s.sessionId) := s]
      ensures Get(s.sessionId) == Some(s)
      ensures forall id :: id != s.sessionId ==> Get(id) == old(Get(id))
    {
      files := files[FilePath(storagePath, s.sessionId) := s];
      forall id | id != s.sessionId ensures Get(id) == old(Get(id)) {
        SaveThenLookup(old(files), storagePath, s, id);
      }
    }

    /** `load(session_id)`: the stored snapshot, or None when there is no file. A loaded
        snapshot carries the id it was loaded by. */
    method Load(id: string) returns (r: Option<SessionData>)
      requires Valid()
      ensures r == Get(id)
      ensures r.None? <==> FilePath(storagePath, id) !in files
      ensures r.Some? ==> r.value.sessionId == id
    {
      var p := FilePath(storagePath, id);
      if p !in files {
        return None;
      }
      r := Some(files[p]);
      FilePathInjective(storagePath, id, files[p].sessionId);
    }

    /** `delete(session_id)`: true and the file removed when it exists, false otherwise. */
    method Delete(id: string) returns (existed: bool)
      requires Valid()
      modifies this
      ensures Valid()
      ensures existed <==> old(Get(id)).Some?
      ensures files == old(files) - {FilePath(storagePath, id)}
      ensures !existed ==> files == old(files)
      ensures Get(id).None?
      ensures forall other :: other != id ==> Get(other) == old(Get(other))
    {
      var p := FilePath(storagePath, id);
      existed := p in files;
      files := files - {p};
      forall other | other != id ensures Get(other) == old(Get(other)) {
        DeleteThenLookup(old(files), storagePath, id, other);
      }
    }
  }
}
