/**
 * The local disk as DXVcsRepository sees it through its FileSystem object and
 * the File/Directory statics: files keyed by canonical path, and the set of
 * existing directories (also canonical).
 */
module FileSystems {
  import opened Wrappers
  import opened Paths
  import opened VcsTypes

  /** `files` after SetAttributes(path, attr); a missing file is left alone. */
  function SetAttr(files: map<string, LocalFile>, path: string, attr: FileAttributes): (r: map<string, LocalFile>)
    ensures r.Keys == files.Keys
    ensures Canon(path) in files ==> r[Canon(path)] == files[Canon(path)].(readOnly := attr == ReadOnly)
    ensures forall k :: k in files && k != Canon(path) ==> r[k] == files[k]
  {
    var k := Canon(path);
    if k in files then files[k := files[k].(readOnly := attr == ReadOnly)] else files
  }

  /** `files` after WriteAllBytes(path, data) at time `now`: content replaced, attributes kept. */
  function WriteBytes(files: map<string, LocalFile>, path: string, data: Bytes, now: int): (r: map<string, LocalFile>)
    ensures r.Keys == files.Keys + {Canon(path)}
    ensures r[Canon(path)].data == data && r[Canon(path)].lastWrite == now
    ensures forall k :: k in files && k != Canon(path) ==> r[k] == files[k]
  {
    var k := Canon(path);
    files[k := LocalFile(data, k in files && files[k].readOnly, now, k in files && files[k].locked)]
  }

  /** `files` after SetLastWriteTimeUtc(path, t). */
  function SetTime(files: map<string, LocalFile>, path: string, t: int): (r: map<string, LocalFile>)
    ensures r.Keys == files.Keys
    ensures Canon(path) in files ==> r[Canon(path)] == files[Canon(path)].(lastWrite := t)
    ensures forall k :: k in files && k != Canon(path) ==> r[k] == files[k]
  {
    var k := Canon(path);
    if k in files then files[k := files[k].(lastWrite := t)] else files
  }

  /** Key `k` lies strictly inside the canonical directory `dir`. */
  predicate Under(k: string, dir: string) {
    |k| > |dir| && k[..|dir|] == dir && k[|dir|] == '\\'
  }

  /** `k` is the directory `dir` itself or lies inside it. */
  predicate InTree(k: string, dir: string) { k == dir || Under(k, dir) }

  class FileSystem {
    var files: map<string, LocalFile>
    var dirs: set<string>

    constructor (files: map<string, LocalFile>, dirs: set<string>)
      ensures this.files == files && this.dirs == dirs
    {
      this.files := files;
      this.dirs := dirs;
    }

    /** FileSystem.GetAttributes: the file at `path`, when there is one. */
    function GetAttributes(path: string): (r: Option<LocalFile>)
      reads this
      ensures r.Some? <==> Canon(path) in files
      ensures r.Some? ==> r.value == files[Canon(path)]
    {
      if Canon(path) in files then Some(files[Canon(path)]) else None
    }

    function Exists(path: string): bool
      reads this
    {
      Canon(path) in files
    }

    function DirectoryExists(path: string): bool
      reads this
    {
      Canon(path) in dirs
    }

    method CreateDirectory(path: string)
      modifies this
      ensures dirs == old(dirs) + {Canon(path)} && files == old(files)
    {
      dirs := dirs + {Canon(path)};
    }

    method SetAttributes(path: string, attr: FileAttributes)
      modifies this
      ensures files == SetAttr(old(files), path, attr) && dirs == old(dirs)
    {
      files := SetAttr(files, path, attr);
    }

    method WriteAllBytes(path: string, data: Bytes, now: int)
      modifies this
      ensures files == WriteBytes(old(files), path, data, now) && dirs == old(dirs)
    {
      files := WriteBytes(files, path, data, now);
    }

    method SetLastWriteTimeUtc(path: string, t: int)
      modifies this
      ensures files == SetTime(old(files), path, t) && dirs == old(dirs)
    {
      files := SetTime(files, path, t);
    }

    /** File.Delete */
    method DeleteFile(path: string)
      modifies this
      ensures files == old(files) - {Canon(path)} && dirs == old(dirs)
    {
      files := files - {Canon(path)};
    }

    /** Directory.Delete(path, true): the directory and everything inside it. */
    method DeleteTree(path: string)
      modifies this
      ensures files == map k | k in old(files) && !InTree(k, Canon(path)) :: old(files)[k]
      ensures dirs == set d | d in old(dirs) && !InTree(d, Canon(path))
    {
      var top := Canon(path);
      files := map k | k in files && !InTree(k, top) :: files[k];
      dirs := set d | d in dirs && !InTree(d, top);
    }
  }

  // ---------------------------------------------------------------------------
  // CleanUpDirectory

  /** The name CleanUpDirectory spares. */
  const GitFolder: string := ".git"

  /** Canonical keys of the listed top-level files. */
  function FileKeys(topFiles: seq<string>): set<string> {
    set i | 0 <= i < |topFiles| :: Canon(topFiles[i])
  }

  /** Canonical keys of the listed subdirectories that are removed: all but `.git`. */
  function SweptDirs(topDirs: seq<string>): set<string> {
    set j | 0 <= j < |topDirs| && GetFile(topDirs[j]) != GitFolder :: Canon(topDirs[j])
  }

  predicate InSwept(k: string, swept: set<string>) {
    exists d :: d in swept && InTree(k, d)
  }

  /** The files not among `gone`. */
  function RemainingFiles(files: map<string, LocalFile>, gone: set<string>): map<string, LocalFile> {
    map k | k in files && k !in gone :: files[k]
  }

  /** The files outside every tree rooted in `swept`. */
  function SweptFiles(files: map<string, LocalFile>, swept: set<string>): map<string, LocalFile> {
    map k | k in files && !InSwept(k, swept) :: files[k]
  }

  /** The directories outside every tree rooted in `swept`. */
  function SweptDirSet(dirs: set<string>, swept: set<string>): set<string> {
    set d | d in dirs && !InSwept(d, swept)
  }

  /** The files left by CleanUpDirectory over the listing (topFiles, topDirs). */
  function CleanedFiles(files: map<string, LocalFile>, topFiles: seq<string>, topDirs: seq<string>): map<string, LocalFile> {
    SweptFiles(RemainingFiles(files, FileKeys(topFiles)), SweptDirs(topDirs))
  }

  /** The directories left by CleanUpDirectory of `root` over its listing. */
  function CleanedDirs(dirs: set<string>, root: string, topDirs: seq<string>): set<string> {
    SweptDirSet(dirs + {Canon(root)}, SweptDirs(topDirs))
  }

  /**
   * With a listing whose subdirectories lie inside the root, the root
   * exists after CleanUpDirectory, and no listed top-level file remains.
   */
  lemma CleanedKeepsRoot(files: map<string, LocalFile>, dirs: set<string>, root: string, topFiles: seq<string>, topDirs: seq<string>)
    requires forall j :: 0 <= j < |topDirs| ==> Under(Canon(topDirs[j]), Canon(root))
    ensures Canon(root) in CleanedDirs(dirs, root, topDirs)
    ensures forall i :: 0 <= i < |topFiles| ==> Canon(topFiles[i]) !in CleanedFiles(files, topFiles, topDirs)
  {
    forall d | d in SweptDirs(topDirs)
      ensures !InTree(Canon(root), d)
    {
      var j :| 0 <= j < |topDirs| && GetFile(topDirs[j]) != GitFolder && d == Canon(topDirs[j]);
      assert Under(d, Canon(root));
    }
  }

  lemma FileKeysSnoc(topFiles: seq<string>, i: nat)
    requires i < |topFiles|
    ensures FileKeys(topFiles[..i + 1]) == FileKeys(topFiles[..i]) + {Canon(topFiles[i])}
  {
    assert forall m :: 0 <= m < i ==> topFiles[..i + 1][m] == topFiles[..i][m];
    assert topFiles[..i + 1][i] == topFiles[i];
  }

  lemma SweptDirsSnoc(topDirs: seq<string>, j: nat)
    requires j < |topDirs|
    ensures SweptDirs(topDirs[..j + 1]) == SweptDirs(topDirs[..j]) + (if GetFile(topDirs[j]) != GitFolder then {Canon(topDirs[j])} else {})
  {
    assert forall m :: 0 <= m < j ==> topDirs[..j + 1][m] == topDirs[..j][m];
    assert topDirs[..j + 1][j] == topDirs[j];
  }

  lemma InSweptAdd(swept: set<string>, d: string, k: string)
    ensures InSwept(k, swept + {d}) <==> InSwept(k, swept) || InTree(k, d)
  {
    if InSwept(k, swept + {d}) && !InTree(k, d) {
      var e :| e in swept + {d} && InTree(k, e);
      assert e in swept;
    }
  }

  /** Deleting one more tree extends the swept set by its root. */
  lemma SweepStep(files0: map<string, LocalFile>, dirs0: set<string>, swept: set<string>, d: string)
    ensures var files := SweptFiles(files0, swept);
      (map k | k in files && !InTree(k, d) :: files[k]) == SweptFiles(files0, swept + {d})
    ensures (set e | e in SweptDirSet(dirs0, swept) && !InTree(e, d)) == SweptDirSet(dirs0, swept + {d})
  {
    forall k ensures InSwept(k, swept + {d}) <==> InSwept(k, swept) || InTree(k, d) {
      InSweptAdd(swept, d, k);
    }
  }

  lemma SweptNone(files: map<string, LocalFile>, dirs: set<string>)
    ensures SweptFiles(files, {}) == files && SweptDirSet(dirs, {}) == dirs
  {
    assert forall k :: !InSwept(k, {});
  }

  lemma RemainingNone(files: map<string, LocalFile>)
    ensures RemainingFiles(files, {}) == files
  {
  }

  /** The first loop of CleanUpDirectory: File.Delete of every listed file. */
  method DeleteListedFiles(fs: FileSystem, topFiles: seq<string>)
    modifies fs
    ensures fs.files == RemainingFiles(old(fs.files), FileKeys(topFiles))
    ensures fs.dirs == old(fs.dirs)
  {
    ghost var files0 := fs.files;
    ghost var gone: set<string> := {};
    RemainingNone(files0);
    var i := 0;
    while i < |topFiles|
      invariant i <= |topFiles|
      invariant gone == FileKeys(topFiles[..i])
      invariant fs.files == RemainingFiles(files0, gone)
      invariant fs.dirs == old(fs.dirs)
    {
      FileKeysSnoc(topFiles, i);
      assert RemainingFiles(files0, gone) - {Canon(topFiles[i])} == RemainingFiles(files0, gone + {Canon(topFiles[i])});
      fs.DeleteFile(topFiles[i]);
      gone := gone + {Canon(topFiles[i])};
      i := i + 1;
    }
    assert topFiles[..i] == topFiles;
  }

  /** The second loop of CleanUpDirectory: Directory.Delete of every listed subdirectory but `.git`. */
  method DeleteListedDirs(fs: FileSystem, topDirs: seq<string>)
    modifies fs
    ensures fs.files == SweptFiles(old(fs.files), SweptDirs(topDirs))
    ensures fs.dirs == SweptDirSet(old(fs.dirs), SweptDirs(topDirs))
  {
    ghost var files0, dirs0 := fs.files, fs.dirs;
    ghost var swept: set<string> := {};
    SweptNone(files0, dirs0);
    var j := 0;
    while j < |topDirs|
      invariant j <= |topDirs|
      invariant swept == SweptDirs(topDirs[..j])
      invariant fs.files == SweptFiles(files0, swept)
      invariant fs.dirs == SweptDirSet(dirs0, swept)
    {
      var dir := topDirs[j];
      SweptDirsSnoc(topDirs, j);
      if GetFile(dir) != GitFolder {
        SweepStep(files0, dirs0, swept, Canon(dir));
        fs.DeleteTree(dir);
        swept := swept + {Canon(dir)};
      }
      j := j + 1;
    }
    assert topDirs[..j] == topDirs;
  }

  /**
   * CleanUpDirectory: creates `root`, deletes every listed top-level file and
   * every listed subdirectory tree except the one named `.git`.  The listing
   * stands for Directory.EnumerateFiles/EnumerateDirectories of `root`.
   */
  method CleanUpDirectory(fs: FileSystem, root: string, topFiles: seq<string>, topDirs: seq<string>)
    modifies fs
    ensures fs.files == CleanedFiles(old(fs.files), topFiles, topDirs)
    ensures fs.dirs == CleanedDirs(old(fs.dirs), root, topDirs)
  {
    fs.CreateDirectory(root);
    DeleteListedFiles(fs, topFiles);
    DeleteListedDirs(fs, topDirs);
  }
}
