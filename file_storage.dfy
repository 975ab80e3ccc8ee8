/** The file-storage plugin: during a test run, uploaded files go to a directory named
    by a random token under MEDIA_ROOT, which is removed after every test. */
module FileStorage {
  import opened Py
  import Tokens

  const StorageClass: string := "nosedjango.plugins.file_storage.TestFileSystemStorage"

  /** `os.path.join(a, b)` on POSIX. */
  function PathJoin(a: string, b: string): string
  {
    if b != [] && b[0] == '/' then b
    else if a == [] || a[|a| - 1] == '/' then a + b
    else a + "/" + b
  }

  /** Where a `FileSystemStorage` keeps its files and the URL they are served under. */
  datatype Storage = Storage(location: string, baseUrl: string)

  /** `TestFileSystemStorage(location, base_url)`: the arguments are ignored; both
      places are derived from the settings' token. Reading a missing `_TEST_FS_TOKEN`
      raises AttributeError; a non-string value makes `os.path.join` raise. */
  function TestStorage(location: Value, baseUrl: Value, settings: Attrs): (r: Result<Storage>)
    ensures r.Ok? <==> ("_TEST_FS_TOKEN" in settings && settings["_TEST_FS_TOKEN"].Str?
      && GetAttr(settings, "MEDIA_ROOT", Str("")).Str? && GetAttr(settings, "MEDIA_URL", Str("")).Str?)
  {
    if "_TEST_FS_TOKEN" !in settings then Err("AttributeError: _TEST_FS_TOKEN")
    else
      match (settings["_TEST_FS_TOKEN"], GetAttr(settings, "MEDIA_ROOT", Str("")), GetAttr(settings, "MEDIA_URL", Str("")))
      case (Str(token), Str(root), Str(url)) => Ok(Storage(PathJoin(root, token), PathJoin(url, token + "/")))
      case _ => Err("TypeError: os.path.join")
  }

  /** Whatever it is given, the storage lands in the same place. */
  lemma StorageIgnoresArguments(l1: Value, u1: Value, l2: Value, u2: Value, settings: Attrs)
    ensures TestStorage(l1, u1, settings) == TestStorage(l2, u2, settings)
  {
  }

  /** For a token (non-empty, no slash) the storage is the token's own directory right
      under MEDIA_ROOT, and its URL is the token's own path under MEDIA_URL, ending in a slash. */
  lemma StorageUnderMediaRoot(root: string, url: string, token: string)
    requires token != [] && '/' !in token
    ensures var location := PathJoin(root, token);
      var sep := if root == [] || root[|root| - 1] == '/' then "" else "/";
      location == root + sep + token && location != root
    ensures var baseUrl := PathJoin(url, token + "/");
      var sep := if url == [] || url[|url| - 1] == '/' then "" else "/";
      baseUrl == url + sep + token + "/" && baseUrl[|baseUrl| - 1] == '/'
  {
  }

  /** The test storage is the token's directory right under MEDIA_ROOT, served from the
      token's path under MEDIA_URL. */
  lemma TestStorageIsTokenDirectory(location: Value, baseUrl: Value, settings: Attrs,
                                    token: string, root: string, url: string)
    requires "_TEST_FS_TOKEN" in settings && settings["_TEST_FS_TOKEN"] == Str(token)
    requires token != [] && '/' !in token
    requires GetAttr(settings, "MEDIA_ROOT", Str("")) == Str(root)
    requires GetAttr(settings, "MEDIA_URL", Str("")) == Str(url)
    ensures TestStorage(location, baseUrl, settings).Ok?
    ensures var s := TestStorage(location, baseUrl, settings).value;
      && root <= s.location && |root| < |s.location| && s.location[|s.location| - |token|..] == token
      && url <= s.baseUrl && s.baseUrl[|s.baseUrl| - |token| - 1..] == token + "/"
  {
  }

  /** Two different tokens give two different storage directories. */
  lemma DistinctTokensDistinctLocations(root: string, t1: string, t2: string)
    requires t1 != [] && '/' !in t1 && t2 != [] && '/' !in t2
    requires PathJoin(root, t1) == PathJoin(root, t2)
    ensures t1 == t2
  {
    StorageUnderMediaRoot(root, "", t1);
    StorageUnderMediaRoot(root, "", t2);
    var sep := if root == [] || root[|root| - 1] == '/' then "" else "/";
    var n := |root + sep|;
    assert t1 == PathJoin(root, t1)[n..];
    assert t2 == PathJoin(root, t2)[n..];
  }

  /** A token from `random_token` is a name of its own under MEDIA_ROOT. */
  lemma RandomTokenIsAName(choose: nat -> Tokens.Index)
    ensures var token := Tokens.RandomToken(128, choose); token != [] && '/' !in token
  {
    Tokens.AlphabetIsUrlSafe();
  }

  /** The files on disk, as the set of their paths. */
  class FileSystem {
    var paths: set<string>

    constructor (paths: set<string>)
      ensures this.paths == paths
    {
      this.paths := paths;
    }
  }

  /** `p` is `dir` or lies below it. */
  predicate InTree(p: string, dir: string)
  {
    p == dir || dir + "/" <= p
  }

  /** The paths left by `shutil.rmtree(dir)`, with the OSError for a missing directory
      swallowed. */
  function RemovedTree(paths: set<string>, dir: string): (r: set<string>)
  {
    if dir in paths then set p | p in paths && !InTree(p, dir) else paths
  }

  /** Removing the token directory twice is removing it once. */
  lemma RemovedTreeIdempotent(paths: set<string>, dir: string)
    ensures RemovedTree(RemovedTree(paths, dir), dir) == RemovedTree(paths, dir)
  {
  }

  /** Nothing of the tree is left, and every other path is kept. */
  lemma RemovedTreeExactly(paths: set<string>, dir: string, p: string)
    requires dir in paths
    ensures p in RemovedTree(paths, dir) <==> p in paths && !InTree(p, dir)
  {
  }

  class FileStoragePlugin {
    var token: Option<string>   // `self.token`, absent until beforeTestSetup

    constructor ()
      ensures token == None
    {
      token := None;
    }

    /** `beforeTestSetup`: route the default file storage to the test storage and draw
        the token, kept both on the plugin and in the settings. */
    method BeforeTestSetup(settings: Settings, choose: nat -> Tokens.Index)
      modifies this, settings
      ensures token == Some(Tokens.RandomToken(128, choose))
      ensures settings.attrs == old(settings.attrs)["DEFAULT_FILE_STORAGE" := Str(StorageClass)]
                                                   ["_TEST_FS_TOKEN" := Str(token.value)]
    {
      settings.attrs := settings.attrs["DEFAULT_FILE_STORAGE" := Str(StorageClass)];
      token := Some(Tokens.RandomToken(128, choose));
      settings.attrs := settings.attrs["_TEST_FS_TOKEN" := Str(token.value)];
    }

    /** `clear_test_media`: remove the test storage's directory tree if it exists. Building
        the storage can raise (no token in the settings); that is not swallowed. */
    method ClearTestMedia(settings: Settings, fs: FileSystem) returns (ok: bool)
      modifies fs
      ensures var storage := TestStorage(NoneValue, NoneValue, settings.attrs);
        && ok == storage.Ok?
        && fs.paths == if ok then RemovedTree(old(fs.paths), storage.value.location) else old(fs.paths)
    {
      var tfs := TestStorage(NoneValue, NoneValue, settings.attrs);
      if tfs.Err? {
        return false;
      }
      if tfs.value.location in fs.paths {
        fs.paths := set p | p in fs.paths && !InTree(p, tfs.value.location);
      }
      return true;
    }

    /** `afterRollback`: always clears the test media. */
    method AfterRollback(settings: Settings, fs: FileSystem) returns (ok: bool)
      modifies fs
      ensures var storage := TestStorage(NoneValue, NoneValue, settings.attrs);
        && ok == storage.Ok?
        && fs.paths == if ok then RemovedTree(old(fs.paths), storage.value.location) else old(fs.paths)
    {
      ok := ClearTestMedia(settings, fs);
    }
  }

  /** After beforeTestSetup, clearing the test media removes exactly the token's
      directory under MEDIA_ROOT and nothing outside it. */
  method SetupThenClear(settings: Settings, fs: FileSystem, choose: nat -> Tokens.Index) returns (dir: string)
    requires GetAttr(settings.attrs, "MEDIA_ROOT", Str("")).Str?
    requires GetAttr(settings.attrs, "MEDIA_URL", Str("")).Str?
    modifies settings, fs
    ensures dir == PathJoin(GetAttr(old(settings.attrs), "MEDIA_ROOT", Str("")).s, Tokens.RandomToken(128, choose))
    ensures fs.paths == RemovedTree(old(fs.paths), dir)
  {
    var plugin := new FileStoragePlugin();
    plugin.BeforeTestSetup(settings, choose);
    var ok := plugin.AfterRollback(settings, fs);
    dir := TestStorage(NoneValue, NoneValue, settings.attrs).value.location;
  }
}
