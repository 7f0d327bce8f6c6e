/**
  The predecoded prompt cache: every file of the embedded `audio` directory,
  decoded once and kept in memory under the key `audio/<name>`.

  The embedded directory listing and the outcome of opening and decoding
  each file are parameters; logging is left out.
 */
module Assets {
  import opened Wrappers
  import opened Beep

  const AudioDir: string := "audio/"

  /** One entry of the embedded directory. */
  datatype DirEntry = DirEntry(name: string, isDir: bool)

  /** Why a file could not be loaded. */
  datatype LoadError = OpenFailed(cause: string) | DecodeFailed(cause: string)

  /** `PredecodedAudio`. */
  datatype PredecodedAudio = PredecodedAudio(buffer: Buffer, format: Format)

  /** The cache key of a directory entry. */
  function KeyOf(entry: DirEntry): (key: string)
    ensures |key| == |AudioDir| + |entry.name| && key[..|AudioDir|] == AudioDir && key[|AudioDir|..] == entry.name
  {
    AudioDir + entry.name
  }

  /** The message `preloadFile` returns for a failed load. */
  function LoadErrorMessage(path: string, e: LoadError): string {
    match e
    case OpenFailed(cause) => "failed to open file " + path + ": " + cause
    case DecodeFailed(cause) => "failed to decode MP3 " + path + ": " + cause
  }

  /** The cache entry `preloadFile` stores for a decoded buffer: the buffer with its own format. */
  function EntryOf(buffer: Buffer): (a: PredecodedAudio)
    ensures a.buffer == buffer && a.format == buffer.format
  {
    PredecodedAudio(buffer, buffer.format)
  }

  /**
    The entries `loadAllAudio` leaves in an empty cache: directories are
    skipped, failed loads are skipped, later entries overwrite earlier ones.
   */
  function Loaded(entries: seq<DirEntry>, load: string -> Result<Buffer, LoadError>): map<string, PredecodedAudio>
    decreases |entries|
  {
    if entries == [] then map[]
    else
      var before := Loaded(entries[..|entries| - 1], load);
      var e := entries[|entries| - 1];
      if e.isDir then before
      else match load(KeyOf(e))
        case Success(b) => before[KeyOf(e) := EntryOf(b)]
        case Failure(_) => before
  }

  /** A key is loaded exactly when some file entry has it as its key and its load succeeded. */
  lemma {:induction false} LoadedKeys(entries: seq<DirEntry>, load: string -> Result<Buffer, LoadError>, key: string)
    ensures key in Loaded(entries, load) <==>
      exists i :: 0 <= i < |entries| && !entries[i].isDir && KeyOf(entries[i]) == key && load(key).Success?
    decreases |entries|
  {
    if entries != [] {
      var init := entries[..|entries| - 1];
      LoadedKeys(init, load, key);
      assert forall i :: 0 <= i < |init| ==> init[i] == entries[i];
      if key in Loaded(entries, load) && key !in Loaded(init, load) {
        assert KeyOf(entries[|entries| - 1]) == key;
      }
    }
  }

  /** A loaded entry holds the buffer its file decoded to, with that buffer's format. */
  lemma {:induction false} LoadedEntries(entries: seq<DirEntry>, load: string -> Result<Buffer, LoadError>, key: string)
    requires key in Loaded(entries, load)
    ensures load(key).Success?
    ensures Loaded(entries, load)[key] == EntryOf(load(key).value)
    ensures Loaded(entries, load)[key].format == load(key).value.format
    decreases |entries|
  {
    var init := entries[..|entries| - 1];
    var e := entries[|entries| - 1];
    if e.isDir || load(KeyOf(e)).Failure? || KeyOf(e) != key {
      LoadedEntries(init, load, key);
    }
  }

  /** `PredecodedCache`. */
  class PredecodedCache {
    var cache: map<string, PredecodedAudio>

    constructor ()
      ensures cache == map[]
    {
      cache := map[];
    }

    /** `preloadFile`: stores the decoded file under `path`, or reports why it could not be loaded. */
    method PreloadFile(path: string, loaded: Result<Buffer, LoadError>) returns (err: Option<string>)
      modifies this
      ensures loaded.Success? ==> err == None && cache == old(cache)[path := EntryOf(loaded.value)]
      ensures loaded.Failure? ==> err == Some(LoadErrorMessage(path, loaded.error)) && cache == old(cache)
    {
      match loaded
      case Failure(e) =>
        return Some(LoadErrorMessage(path, e));
      case Success(b) =>
        cache := cache[path := EntryOf(b)];
        return None;
    }

    /**
      `loadAllAudio` on an empty cache: a directory that cannot be listed is
      fatal; otherwise the cache ends up holding exactly `Loaded(entries, load)`.
     */
    method LoadAllAudio(listing: Result<seq<DirEntry>, string>, load: string -> Result<Buffer, LoadError>)
      returns (fatal: Option<string>)
      requires cache == map[]
      modifies this
      ensures listing.Failure? ==> fatal == Some("Failed to read audio directory: " + listing.error) && cache == map[]
      ensures listing.Success? ==> fatal == None && cache == Loaded(listing.value, load)
    {
      if listing.Failure? {
        return Some("Failed to read audio directory: " + listing.error);
      }
      var entries := listing.value;
      var i := 0;
      while i < |entries|
        invariant 0 <= i <= |entries|
        invariant cache == Loaded(entries[..i], load)
      {
        assert entries[..i + 1][..i] == entries[..i];
        var entry := entries[i];
        if !entry.isDir {
          var path := AudioDir + entry.name;
          var _ := PreloadFile(path, load(path));
        }
        i := i + 1;
      }
      assert entries[..i] == entries;
      fatal := None;
    }

    /** `GetAudio`: the entry stored under `path`, if any. */
    function GetAudio(path: string): (r: Option<PredecodedAudio>)
      reads this
      ensures r.Some? <==> path in cache
      ensures r.Some? ==> r.value == cache[path]
    {
      if path in cache then Some(cache[path]) else None
    }
  }

  /** The package state behind `GetPredecodedCache`: the singleton and its `sync.Once`. */
  class AssetsPackage {
    var instance: PredecodedCache?

    constructor ()
      ensures instance == null
    {
      instance := null;
    }

    /**
      Loads the cache on the first call only; every call returns the same
      instance. A fatal listing failure ends the process.
     */
    method GetPredecodedCache(listing: Result<seq<DirEntry>, string>, load: string -> Result<Buffer, LoadError>)
      returns (c: PredecodedCache, fatal: Option<string>)
      modifies this
      ensures old(instance) != null ==> c == old(instance) && instance == c && fatal == None
      ensures old(instance) == null && listing.Success? ==>
        fresh(c) && instance == c && fatal == None && c.cache == Loaded(listing.value, load)
      ensures old(instance) == null && listing.Failure? ==> fatal.Some?
    {
      if instance != null {
        return instance, None;
      }
      c := new PredecodedCache();
      fatal := c.LoadAllAudio(listing, load);
      instance := c;
    }
  }
}
