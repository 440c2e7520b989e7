/**
 * What happens to the local disk after a block has been classified: the
 * write stage of QueueAll (decompress, then write or re-attribute every
 * slot) and the checkout stage (batched checkout, then Normal for every
 * file the server did not refuse).
 */
module Pipeline {
  import opened Wrappers
  import opened Paths
  import opened VcsTypes
  import opened VcsHelpers
  import opened FileSystems
  import opened Reconcile

  /** The disk after a stage and the exception the stage raised or queued, if any. */
  datatype Outcome = Outcome(files: map<string, LocalFile>, raised: Option<Error>)

  /** `f` and `g` agree at key `k`: both lack it, or both hold the same file. */
  predicate SameAt(f: map<string, LocalFile>, g: map<string, LocalFile>, k: string) {
    (k in f <==> k in g) && (k in f ==> f[k] == g[k])
  }

  // ---------------------------------------------------------------------------
  // Write stage

  /** The decompression loop of QueueAll: null entries stay null, the others are decompressed. */
  function DecompressAll(data: seq<Option<Bytes>>, decompress: Bytes -> Bytes): (r: seq<Option<Bytes>>)
    ensures |r| == |data|
    ensures forall i :: 0 <= i < |data| ==> (r[i].Some? <==> data[i].Some?)
    ensures forall i :: 0 <= i < |data| && data[i].Some? ==> r[i].value == decompress(data[i].value)
  {
    seq(|data|, i requires 0 <= i < |data| => if data[i].Some? then Some(decompress(data[i].value)) else None)
  }

  /** The slot takes the GetLatestReplaceFile branch: it has data, both paths, and is not a pending checkout. */
  predicate Writes(e: Entry, d: Option<Bytes>) {
    d.Some? && e.localPath.Some? && e.path.Some? && !e.doCheckOut
  }

  /** The last-write time a written file ends with: fileTime[i], or the write time when fileTime[i] is MinValue. */
  function Stamp(fileTime: int, now: int): int {
    if fileTime != MinValue then fileTime else now
  }

  /**
   * One index of the write loop of QueueAll.  A written file ends with the
   * new bytes, the stamp of its slot and ReadOnly unless setNormal; a file
   * that is not written but exists has only its attribute set (Normal when
   * setNormal, ReadOnly otherwise).  No other file changes.
   */
  function WriteEntry(files: map<string, LocalFile>, e: Entry, d: Option<Bytes>, now: int): (r: map<string, LocalFile>)
    ensures forall k :: (e.localPath.None? || k != Canon(e.localPath.value)) ==> SameAt(r, files, k)
    ensures Writes(e, d) ==>
      var key := Canon(e.localPath.value);
      key in r && r[key] == LocalFile(d.value, !e.setNormal, Stamp(e.fileTime, now), key in files && files[key].locked)
    ensures !Writes(e, d) && e.localPath.Some? ==>
      var key := Canon(e.localPath.value);
      (key in r <==> key in files) && (key in files ==> r[key] == files[key].(readOnly := !e.setNormal))
  {
    if !Writes(e, d) then
      if e.localPath.Some? && Canon(e.localPath.value) in files then
        SetAttr(files, e.localPath.value, if e.setNormal then Normal else ReadOnly)
      else files
    else
      var local := e.localPath.value;
      var written := WriteBytes(files, local, d.value, now);
      var stamped := if e.fileTime != MinValue then SetTime(written, local, e.fileTime) else written;
      var sealed := SetAttr(stamped, local, ReadOnly);
      if e.setNormal && Canon(local) in sealed then SetAttr(sealed, local, Normal) else sealed
  }

  /**
   * The write loop over indexes 0 .. n-1; it never deletes a file.  What it
   * does to each file is stated by WriteUpToFrame and WriteUpToOwnFile, on
   * top of WriteEntry's contract for one slot.
   */
  function WriteUpTo(files: map<string, LocalFile>, entries: seq<Entry>, data: seq<Option<Bytes>>, now: int, n: nat): (r: map<string, LocalFile>)
    requires n <= |entries| && n <= |data|
    ensures files.Keys <= r.Keys
  {
    if n == 0 then files
    else WriteEntry(WriteUpTo(files, entries, data, now, n - 1), entries[n - 1], data[n - 1], now)
  }

  /**
   * The save part of QueueAll: the loop runs over the data array; an index
   * past the end of the slot arrays throws IndexOutOfRange, which QueueAll
   * queues after the writes before it.
   */
  function WriteStage(files: map<string, LocalFile>, entries: seq<Entry>, data: seq<Option<Bytes>>, now: int): (o: Outcome)
    ensures o.raised.Some? <==> |data| > |entries|
    ensures o.raised.Some? ==> o.raised.value == IndexOutOfRange(|entries|)
  {
    var n := if |data| <= |entries| then |data| else |entries|;
    Outcome(WriteUpTo(files, entries, data, now, n), if |data| > |entries| then Some(IndexOutOfRange(|entries|)) else None)
  }

  /** QueueAll: GetBlockData (its failure is queued), decompression, then the write stage. */
  function FetchAndWrite(opts: SyncOptions, files: map<string, LocalFile>, entries: seq<Entry>,
                         data: Result<seq<Option<Bytes>>, Error>): (o: Outcome)
    ensures data.Err? ==> o == Outcome(files, Some(data.error))
    ensures data.Ok? ==> o == WriteStage(files, entries, DecompressAll(data.value, opts.decompress), opts.now)
  {
    match data
    case Err(e) => Outcome(files, Some(e))
    case Ok(raw) => WriteStage(files, entries, DecompressAll(raw, opts.decompress), opts.now)
  }

  /** The canonical local paths of the slots 0 .. n-1 that have one. */
  function Touched(entries: seq<Entry>, n: nat): set<string>
    requires n <= |entries|
  {
    set i | 0 <= i < n && entries[i].localPath.Some? :: Canon(entries[i].localPath.value)
  }

  /** The write loop touches no file outside the slots' local paths and never deletes one. */
  lemma {:induction false} WriteUpToFrame(files: map<string, LocalFile>, entries: seq<Entry>, data: seq<Option<Bytes>>, now: int, n: nat)
    requires n <= |entries| && n <= |data|
    ensures var r := WriteUpTo(files, entries, data, now, n);
      files.Keys <= r.Keys && r.Keys <= files.Keys + Touched(entries, n)
      && forall k :: k !in Touched(entries, n) ==> SameAt(r, files, k)
  {
    if n > 0 {
      WriteUpToFrame(files, entries, data, now, n - 1);
      var e := entries[n - 1];
      assert Touched(entries, n) == Touched(entries, n - 1) +
        (if e.localPath.Some? then {Canon(e.localPath.value)} else {});
      FrameStep(files, WriteUpTo(files, entries, data, now, n - 1), Touched(entries, n - 1), e, data[n - 1], now);
    }
  }

  /** One iteration of the write loop, on the files and keys touched so far. */
  lemma FrameStep(files: map<string, LocalFile>, prev: map<string, LocalFile>, touched: set<string>, e: Entry, d: Option<Bytes>, now: int)
    requires files.Keys <= prev.Keys && prev.Keys <= files.Keys + touched
    requires forall k :: k !in touched ==> SameAt(prev, files, k)
    ensures var r := WriteEntry(prev, e, d, now);
      var touched' := touched + if e.localPath.Some? then {Canon(e.localPath.value)} else {};
      files.Keys <= r.Keys && r.Keys <= files.Keys + touched'
      && forall k :: k !in touched' ==> SameAt(r, files, k)
  {
    var r := WriteEntry(prev, e, d, now);
    forall k | k in files ensures k in r {
      if e.localPath.Some? && k == Canon(e.localPath.value) {
        assert k in prev;
      } else {
        assert SameAt(r, prev, k);
      }
    }
    forall k | k in r && !(e.localPath.Some? && k == Canon(e.localPath.value)) ensures k in prev {
      assert SameAt(r, prev, k);
    }
  }

  /** The slots 0 .. n-1 other than i do not name the local file of slot i. */
  predicate OwnsKey(entries: seq<Entry>, n: nat, i: nat)
    requires i < n <= |entries|
  {
    entries[i].localPath.Some? &&
    forall j :: 0 <= j < n && j != i && entries[j].localPath.Some? ==>
      Canon(entries[j].localPath.value) != Canon(entries[i].localPath.value)
  }

  /** What one slot does to its own file depends only on that file. */
  lemma WriteEntryLocal(f: map<string, LocalFile>, g: map<string, LocalFile>, e: Entry, d: Option<Bytes>, now: int)
    requires e.localPath.Some? && SameAt(f, g, Canon(e.localPath.value))
    ensures SameAt(WriteEntry(f, e, d, now), WriteEntry(g, e, d, now), Canon(e.localPath.value))
  {
  }

  /**
   * A file named by exactly one slot ends the write loop as that one slot
   * alone leaves it.
   */
  lemma {:induction false} WriteUpToOwnFile(files: map<string, LocalFile>, entries: seq<Entry>, data: seq<Option<Bytes>>, now: int, n: nat, i: nat)
    requires i < n <= |entries| && n <= |data|
    requires OwnsKey(entries, n, i)
    ensures SameAt(WriteUpTo(files, entries, data, now, n), WriteEntry(files, entries[i], data[i], now), Canon(entries[i].localPath.value))
  {
    var key := Canon(entries[i].localPath.value);
    var prev := WriteUpTo(files, entries, data, now, n - 1);
    assert WriteUpTo(files, entries, data, now, n) == WriteEntry(prev, entries[n - 1], data[n - 1], now);
    if i == n - 1 {
      WriteUpToFrame(files, entries, data, now, n - 1);
      assert key !in Touched(entries, n - 1);
      WriteEntryLocal(prev, files, entries[i], data[i], now);
    } else {
      WriteUpToOwnFile(files, entries, data, now, n - 1, i);
      assert SameAt(WriteEntry(prev, entries[n - 1], data[n - 1], now), prev, key);
    }
  }

  // ---------------------------------------------------------------------------
  // Checkout stage

  /** One entry of the checkout batch: the remote path and the local folder it is checked out into. */
  datatype CheckOutItem = CheckOutItem(path: string, localFolder: string)

  /** Slots marked for checkout carry both paths. */
  predicate CheckOutReady(entries: seq<Entry>) {
    forall i :: 0 <= i < |entries| && entries[i].doCheckOut ==> entries[i].localPath.Some? && entries[i].path.Some?
  }

  /** How many of the slots 0 .. n-1 are marked for checkout. */
  function Marked(entries: seq<Entry>, n: nat): (m: nat)
    requires n <= |entries|
    ensures m <= n
  {
    if n == 0 then 0 else Marked(entries, n - 1) + if entries[n - 1].doCheckOut then 1 else 0
  }

  /**
   * pathToCheckOut / localPathToCheckOut over the slots 0 .. n-1 marked for
   * checkout, in index order: one item per marked slot, and the item of
   * marked slot i sits behind the items of the marked slots before it.
   */
  function CheckOutList(entries: seq<Entry>, n: nat): (items: seq<CheckOutItem>)
    requires n <= |entries| && CheckOutReady(entries)
    ensures |items| == Marked(entries, n) <= n
    ensures forall i :: 0 <= i < n && entries[i].doCheckOut ==>
      Marked(entries, i) < |items|
      && items[Marked(entries, i)] == CheckOutItem(entries[i].path.value, GetDirectory(entries[i].localPath.value))
  {
    if n == 0 then []
    else
      var prev := CheckOutList(entries, n - 1);
      var e := entries[n - 1];
      if e.doCheckOut then prev + [CheckOutItem(e.path.value, GetDirectory(e.localPath.value))] else prev
  }

  /** The local file the grant loop makes writable for an item. */
  function GrantedLocal(item: CheckOutItem): string {
    Combine(item.localFolder, GetFile(item.path))
  }

  /** Item i was not refused: there is no access list, or it has no entry for i. */
  predicate Granted(dict: Option<map<int, AccessDeniedInfo>>, i: int) {
    dict.None? || i !in dict.value
  }

  /** The grant loop over items 0 .. n-1; it only changes attributes, so no file appears or disappears. */
  function ApplyGrants(files: map<string, LocalFile>, items: seq<CheckOutItem>, dict: Option<map<int, AccessDeniedInfo>>, n: nat): (r: map<string, LocalFile>)
    requires n <= |items|
    ensures r.Keys == files.Keys
  {
    if n == 0 then files
    else
      var prev := ApplyGrants(files, items, dict, n - 1);
      if Granted(dict, n - 1) then SetAttr(prev, GrantedLocal(items[n - 1]), Normal) else prev
  }

  /** The canonical local files of the granted items among 0 .. n-1. */
  function GrantedKeys(items: seq<CheckOutItem>, dict: Option<map<int, AccessDeniedInfo>>, n: nat): set<string>
    requires n <= |items|
  {
    if n == 0 then {}
    else GrantedKeys(items, dict, n - 1) + if Granted(dict, n - 1) then {Canon(GrantedLocal(items[n - 1]))} else {}
  }

  /**
   * The grant loop makes exactly the granted files that exist writable and
   * changes nothing else: no file appears, disappears or changes content.
   */
  lemma {:induction false} ApplyGrantsSpec(files: map<string, LocalFile>, items: seq<CheckOutItem>, dict: Option<map<int, AccessDeniedInfo>>, n: nat)
    requires n <= |items|
    ensures var r := ApplyGrants(files, items, dict, n);
      r.Keys == files.Keys
      && forall k :: k in files ==> r[k] == if k in GrantedKeys(items, dict, n) then files[k].(readOnly := false) else files[k]
  {
    if n > 0 {
      ApplyGrantsSpec(files, items, dict, n - 1);
      GrantStep(files, ApplyGrants(files, items, dict, n - 1), GrantedKeys(items, dict, n - 1), items[n - 1], Granted(dict, n - 1));
    }
  }

  /** One iteration of the grant loop, on the files and keys granted so far. */
  lemma GrantStep(files: map<string, LocalFile>, prev: map<string, LocalFile>, granted: set<string>, item: CheckOutItem, grant: bool)
    requires prev.Keys == files.Keys
    requires forall k :: k in files ==> prev[k] == if k in granted then files[k].(readOnly := false) else files[k]
    ensures var r := if grant then SetAttr(prev, GrantedLocal(item), Normal) else prev;
      var granted' := granted + if grant then {Canon(GrantedLocal(item))} else {};
      r.Keys == files.Keys
      && forall k :: k in files ==> r[k] == if k in granted' then files[k].(readOnly := false) else files[k]
  {
  }

  /**
   * The checkout block of GetLatestVersion: Service.CheckOut and
   * TakeAccessInfo (their failure propagates), CreateAccessDict (a duplicate
   * index propagates), then Normal for every item not refused.
   */
  function CheckOutStage(files: map<string, LocalFile>, entries: seq<Entry>,
                         accessInfo: Result<Option<seq<AccessDeniedInfo>>, Error>): (o: Outcome)
    requires CheckOutReady(entries)
    ensures accessInfo.Err? ==> o == Outcome(files, Some(accessInfo.error))
    ensures accessInfo.Ok? && AccessDictOf(accessInfo.value).Err? ==> o == Outcome(files, Some(AccessDictOf(accessInfo.value).error))
    ensures accessInfo.Ok? && AccessDictOf(accessInfo.value).Ok? ==>
      var items := CheckOutList(entries, |entries|);
      o == Outcome(ApplyGrants(files, items, AccessDictOf(accessInfo.value).value, |items|), None)
  {
    match accessInfo
    case Err(e) => Outcome(files, Some(e))
    case Ok(list) =>
      match AccessDictOf(list)
      case Err(e) => Outcome(files, Some(e))
      case Ok(dict) =>
        var items := CheckOutList(entries, |entries|);
        Outcome(ApplyGrants(files, items, dict, |items|), None)
  }

  /**
   * The file the grant loop makes writable is the very file that was marked
   * for checkout: GetDirectory of `folder\name` and GetFile of
   * `project/name`, recombined, name the same file on a case-insensitive
   * Windows disk.
   */
  lemma GrantTargetsMarkedFile(folder: string, project: string, name: string)
    requires NoSep(name) && name != ""
    ensures Canon(GrantedLocal(CheckOutItem(project + "/" + name, GetDirectory(folder + "\\" + name))))
         == Canon(folder + "\\" + name)
  {
    DirectoryOfJoined(folder, '\\', name);
    DirectoryOfJoined(project, '/', name);
    assert folder + "\\" + name == folder + ['\\'] + name;
    assert project + "/" + name == project + ['/'] + name;
    CanonCombine(folder, name);
  }

  // ---------------------------------------------------------------------------
  // A file record from classification to disk

  /** The local file of a file record whose project is resolved. */
  predicate Resolved(opts: SyncOptions, r: Resolver, p: int)
  {
    0 <= p < |r.pathList| && Fold(Combine(VcsRoot(opts), r.pathList[p])) in r.localPathDict
  }

  function LocalOf(opts: SyncOptions, r: Resolver, p: int, info: FileStateInfo): string
    requires Resolved(opts, r, p)
  {
    LocalFilePath(r.localPathDict[Fold(Combine(VcsRoot(opts), r.pathList[p]))], info)
  }

  /** The slot a file record is classified into, as the write loop sees it. */
  function SlotOf(opts: SyncOptions, r: Resolver, files: map<string, LocalFile>, p: int, info: FileStateInfo): Entry
    requires Resolved(opts, r, p)
  {
    ClassifyFile(opts, r, files, p, info).value.entry
  }

  /**
   * A read-only local copy that matches the server asks for no data, and
   * one classification and write step leaves it exactly as it is, whatever
   * the data array holds for it.  A whole second run is not idempotent:
   * it starts with CleanUpDirectory, which deletes every such copy in the
   * local project folder outside `.git`.
   */
  lemma UpToDateCopyUntouched(opts: SyncOptions, r: Resolver, files: map<string, LocalFile>, p: int, info: FileStateInfo, d: Option<Bytes>)
    requires Resolved(opts, r, p) && !opts.makeWritable
    requires var key := Canon(LocalOf(opts, r, p, info));
      key in files && files[key].readOnly && opts.hash(files[key].data) == info.hash
    ensures !ClassifyFile(opts, r, files, p, info).value.getData
    ensures WriteEntry(files, SlotOf(opts, r, files, p, info), d, opts.now) == files
  {
    var e := SlotOf(opts, r, files, p, info);
    assert e.localPath.None?;
  }

  /** With Leave, a writable local copy is neither rewritten nor re-attributed. */
  lemma LeaveKeepsWritableCopy(opts: SyncOptions, r: Resolver, files: map<string, LocalFile>, p: int, info: FileStateInfo, d: Option<Bytes>)
    requires Resolved(opts, r, p) && !opts.makeWritable && opts.action == Leave
    requires var key := Canon(LocalOf(opts, r, p, info));
      key in files && !files[key].readOnly
    ensures WriteEntry(files, SlotOf(opts, r, files, p, info), d, opts.now) == files
  {
    var e := SlotOf(opts, r, files, p, info);
    assert e.localPath.None?;
  }

  /**
   * With Replace, a writable local copy that is not locked is replaced by
   * the server's bytes and made read-only, stamped with SelectFileTime.
   */
  lemma ReplaceOverwritesWritableCopy(opts: SyncOptions, r: Resolver, files: map<string, LocalFile>, p: int, info: FileStateInfo, d: Bytes)
    requires Resolved(opts, r, p) && !opts.makeWritable && opts.action == Replace
    requires var key := Canon(LocalOf(opts, r, p, info));
      key in files && !files[key].readOnly && !files[key].locked
    ensures var key := Canon(LocalOf(opts, r, p, info));
      var t := SelectFileTime(info, opts.fileTimeState, opts.now);
      var w := WriteEntry(files, SlotOf(opts, r, files, p, info), Some(d), opts.now);
      key in w && w[key] == LocalFile(d, true, if t != MinValue then t else opts.now, false)
  {
    var e := SlotOf(opts, r, files, p, info);
    assert Writes(e, Some(d));
  }

  /**
   * A file marked for checkout is never overwritten by the write loop; it
   * only becomes writable.
   */
  lemma CheckOutNeverOverwritten(opts: SyncOptions, r: Resolver, files: map<string, LocalFile>, p: int, info: FileStateInfo, d: Option<Bytes>)
    requires Resolved(opts, r, p) && opts.action == CheckOut
    requires var key := Canon(LocalOf(opts, r, p, info));
      key in files && !files[key].readOnly && !files[key].locked
      && !(opts.makeWritable && opts.hash(files[key].data) == info.hash)
    ensures SlotOf(opts, r, files, p, info).doCheckOut
    ensures var key := Canon(LocalOf(opts, r, p, info));
      var w := WriteEntry(files, SlotOf(opts, r, files, p, info), d, opts.now);
      key in w && w[key] == files[key].(readOnly := false)
  {
    var e := SlotOf(opts, r, files, p, info);
    assert !Writes(e, d);
  }

  /**
   * A file missing locally whose folder exists is created with the server's
   * bytes; it is left writable exactly when it is checked out by this user
   * into this folder on this machine and makeWritable or the record's
   * checkout flag asks for it (always, under makeWritable).
   */
  lemma MissingFileCreated(opts: SyncOptions, r: Resolver, files: map<string, LocalFile>, p: int, info: FileStateInfo, d: Bytes)
    requires Resolved(opts, r, p)
    requires var project := Combine(VcsRoot(opts), r.pathList[p]);
      Canon(LocalOf(opts, r, p, info)) !in files && Canon(r.localPathDict[Fold(project)]) in r.dirs
    ensures var key := Canon(LocalOf(opts, r, p, info));
      var local := LocalOf(opts, r, p, info);
      var w := WriteEntry(files, SlotOf(opts, r, files, p, info), Some(d), opts.now);
      key in w && w[key].data == d && !w[key].locked
      && (w[key].readOnly <==>
            !opts.makeWritable && !(info.checkedOut && info.checkedOutMe
            && EqualsIgnoreCase(info.checkOutFolder, GetDirectory(local))
            && EqualsIgnoreCase(info.checkOutHost, opts.machineName)))
  {
    var e := SlotOf(opts, r, files, p, info);
    assert Writes(e, Some(d));
  }
}
