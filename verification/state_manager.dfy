/**
 * The application's key-value state store: one JSON file per key under a
 * base directory. Files are the entries of a map from path to content, and
 * serialisation is the identity, so a file holds exactly the value saved.
 */
module StateManager {
  import opened Wrappers

  /** A path that starts at the root of the file system. */
  predicate IsRooted(path: string) {
    path != [] && path[0] == '/'
  }

  /** The text `Path.Combine(base, rel)` puts in front of a relative `rel`. */
  function DirectoryPrefix(base: string): string {
    if base == [] then []
    else if base[|base| - 1] == '/' then base
    else base + "/"
  }

  /**
   * `Path.Combine(base, rel)` with '/' as separator: a rooted `rel` replaces
   * `base`, otherwise a separator is inserted unless `base` already ends
   * with one or is empty.
   */
  function PathCombine(base: string, rel: string): string {
    if IsRooted(rel) then rel else DirectoryPrefix(base) + rel
  }

  /** `GetFilePath`: "<base>/<key>.json". */
  function FilePath(basePath: string, key: string): (path: string)
    ensures !IsRooted(key) ==> path == DirectoryPrefix(basePath) + key + ".json"
    ensures IsRooted(key) ==> path == key + ".json"
    ensures !IsRooted(basePath) ==> (IsRooted(path) <==> IsRooted(key))
  {
    PathCombine(basePath, key + ".json")
  }

  /**
   * Distinct keys are stored in distinct files, unless the base directory is
   * itself rooted and a key is rooted too (see RootedKeysCanCollide).
   */
  lemma FilePathInjective(basePath: string, k1: string, k2: string)
    requires !IsRooted(basePath) || (!IsRooted(k1) && !IsRooted(k2))
    requires FilePath(basePath, k1) == FilePath(basePath, k2)
    ensures k1 == k2
  {
    var p1, p2 := FilePath(basePath, k1), FilePath(basePath, k2);
    var pre := DirectoryPrefix(basePath);
    assert IsRooted(k1) == IsRooted(k2);
    if IsRooted(k1) {
      assert k1 == p1[..|p1| - 5];
    } else {
      assert |k1| == |k2|;
      assert k1 == p1[|pre|..|pre| + |k1|];
      assert k2 == p2[|pre|..|pre| + |k2|];
    }
  }

  /** With a rooted base directory, a rooted key can name another key's file. */
  lemma RootedKeysCanCollide()
    ensures FilePath("/state", "/state/x") == FilePath("/state", "x")
  {
  }

  /** What `Load(key)` finds in `files`: the content of the key's file, if any. */
  function Lookup<V>(files: map<string, V>, basePath: string, key: string): Option<V> {
    var path := FilePath(basePath, key);
    if path in files then Some(files[path]) else None
  }

  /** Saving a key does not change what any other key loads. */
  lemma SaveKeepsOtherKeys<V>(files: map<string, V>, basePath: string, saved: string, data: V, other: string)
    requires !IsRooted(basePath) || (!IsRooted(saved) && !IsRooted(other))
    requires saved != other
    ensures Lookup(files[FilePath(basePath, saved) := data], basePath, other) == Lookup(files, basePath, other)
  {
    if FilePath(basePath, saved) == FilePath(basePath, other) {
      FilePathInjective(basePath, saved, other);
    }
  }

  /** The store over a base directory. */
  class StateStore<V> {
    const basePath: string
    /** The state files: path to content. */
    var files: map<string, V>

    /** The store sees whatever files the directory already holds. */
    constructor (basePath: string, onDisk: map<string, V>)
      ensures this.basePath == basePath && files == onDisk
    {
      this.basePath := basePath;
      files := onDisk;
    }

    /** The content of the key's file, if the file exists. */
    function Stored(key: string): Option<V>
      reads this
    {
      Lookup(files, basePath, key)
    }

    /**
     * `SaveAsync`: the key's file is replaced by the new content (written to a
     * temporary file, then moved over the old one); no other file changes.
     */
    method Save(key: string, data: V)
      modifies this
      ensures files == old(files)[FilePath(basePath, key) := data]
      ensures Stored(key) == Some(data)
    {
      files := files[FilePath(basePath, key) := data];
    }

    /** `LoadAsync`: the saved value, or null (None) when the file does not exist. */
    method Load(key: string) returns (r: Option<V>)
      ensures r == Stored(key)
      ensures r.None? <==> !Exists(key)
    {
      var path := FilePath(basePath, key);
      if path !in files {
        return None;
      }
      r := Some(files[path]);
    }

    /**
     * `LoadOrCreateAsync`: an existing value is returned without calling the
     * factory or writing; otherwise the factory's value is saved and returned.
     */
    method LoadOrCreate(key: string, factory: () -> V) returns (v: V, created: bool)
      modifies this
      ensures created <==> old(Stored(key)).None?
      ensures !created ==> old(Stored(key)) == Some(v) && files == old(files)
      ensures created ==> v == factory() && files == old(files)[FilePath(basePath, key) := v]
      ensures Stored(key) == Some(v)
    {
      var existing := Load(key);
      if existing.Some? {
        return existing.value, false;
      }
      v := factory();
      created := true;
      Save(key, v);
    }

    /**
     * `UpdateAsync`: the transform is applied to the stored value, or to
     * `defaultValue` when there is none; its result is saved and returned.
     */
    method Update(key: string, defaultValue: V, transform: V -> V) returns (updated: V)
      modifies this
      ensures updated == transform(old(Stored(key)).GetOr(defaultValue))
      ensures files == old(files)[FilePath(basePath, key) := updated]
      ensures Stored(key) == Some(updated)
    {
      var current := Load(key);
      updated := transform(current.GetOr(defaultValue));
      Save(key, updated);
    }

    /** `Exists`: the key's file exists. */
    function Exists(key: string): (b: bool)
      reads this
      ensures b <==> Stored(key).Some?
    {
      FilePath(basePath, key) in files
    }
  }

  /** Saving and then loading a key gives back what was saved. */
  method SaveThenLoad<V>(store: StateStore<V>, key: string, data: V) returns (r: Option<V>, present: bool)
    modifies store
    ensures r == Some(data) && present
  {
    store.Save(key, data);
    r := store.Load(key);
    present := store.Exists(key);
  }
}
