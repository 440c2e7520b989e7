/**
 * DXVcsRepository.GetLatestVersion and its helpers as imperative code over
 * the FileSystem object, the slot array of a block and the exception queue,
 * each proved against the functions of Reconcile, Pipeline and Run.
 */
module Repository {
  import opened Wrappers
  import opened Paths
  import opened VcsTypes
  import opened VcsHelpers
  import opened FileSystems
  import opened Reconcile
  import opened Pipeline
  import opened Run

  /** Once the record loop has thrown, further records change nothing. */
  lemma {:induction false} ClassifyRecordsErrSticks(opts: SyncOptions, files: map<string, LocalFile>, r0: Resolver,
                                                   paths: seq<int>, infos: seq<FileStateInfo>, i: nat, n: nat)
    requires i <= n <= |paths|
    requires ClassifyRecords(opts, files, r0, paths, infos, i).error.Some?
    ensures ClassifyRecords(opts, files, r0, paths, infos, n) == ClassifyRecords(opts, files, r0, paths, infos, i)
    decreases n - i
  {
    if i < n {
      ClassifyRecordsErrSticks(opts, files, r0, paths, infos, i, n - 1);
    }
  }

  /**
   * One iteration of the record loop, for record i with back-reference p:
   * a marker extends pathList, creates its folder and adds its project to
   * localPathDict; a file record fills slot i.
   */
  method ClassifyRecord(opts: SyncOptions, fs: FileSystem, entries: array<Entry>, i: nat, p: int, infos: seq<FileStateInfo>,
                        pathList: seq<string>, localPathDict: map<string, string>, doGetData: bool, wasCheckOut: bool)
    returns (pathList': seq<string>, localPathDict': map<string, string>, doGetData': bool, wasCheckOut': bool, error: Option<Error>)
    requires i < entries.Length && entries[i] == Untouched
    modifies fs, entries
    ensures var next := StepRecord(opts, old(fs.files), BlockPlan(Resolver(pathList, localPathDict, old(fs.dirs)), old(entries[..i]), doGetData, wasCheckOut, None), p, infos, i);
      next.resolver == Resolver(pathList', localPathDict', fs.dirs) && next.error == error
      && next.doGetData == doGetData' && next.wasCheckOut == wasCheckOut' && fs.files == old(fs.files)
      && (error.None? ==> next.entries == entries[..i + 1])
    ensures forall j :: 0 <= j < entries.Length && j != i ==> entries[j] == old(entries[j])
  {
    pathList', localPathDict', doGetData', wasCheckOut', error := pathList, localPathDict, doGetData, wasCheckOut, None;
    if i >= |infos| {
      error := Some(IndexOutOfRange(i));
    } else if infos[i].isNull {
      var segment := RemoveFinishSlash(infos[i].name);
      pathList' := pathList + [segment];
      var project := if segment != "" then VcsRoot(opts) + "/" + segment else VcsRoot(opts);
      var folder := MarkerFolder(opts, infos[i]);
      fs.CreateDirectory(folder);
      if Fold(project) in localPathDict {
        error := Some(DuplicateKey(project));
      } else {
        localPathDict' := localPathDict[Fold(project) := folder];
      }
      assert entries[..i + 1] == old(entries[..i]) + [Untouched];
    } else {
      match ClassifyFile(opts, Resolver(pathList, localPathDict, fs.dirs), fs.files, p, infos[i])
      case Err(e) =>
        error := Some(e);
      case Ok(d) =>
        entries[i] := d.entry;
        doGetData' := doGetData || d.getData;
        wasCheckOut' := wasCheckOut || d.checkOut;
        assert entries[..i + 1] == old(entries[..i]) + [d.entry];
    }
  }

  /**
   * The record loop over one block, over fresh slot arrays; it stops at
   * the first exception.
   */
  method ClassifyBlock(opts: SyncOptions, fs: FileSystem, pathList: seq<string>, localPathDict: map<string, string>,
                       paths: seq<int>, infos: seq<FileStateInfo>)
    returns (pathList': seq<string>, localPathDict': map<string, string>, entries: array<Entry>,
             doGetData: bool, wasCheckOut: bool, error: Option<Error>)
    modifies fs
    ensures fresh(entries) && entries.Length == |paths|
    ensures var plan := ClassifyRecords(opts, old(fs.files), Resolver(pathList, localPathDict, old(fs.dirs)), paths, infos, |paths|);
      Resolver(pathList', localPathDict', fs.dirs) == plan.resolver && fs.files == old(fs.files) && error == plan.error
      && (error.None? ==> entries[..] == plan.entries && doGetData == plan.doGetData && wasCheckOut == plan.wasCheckOut)
  {
    ghost var r0 := Resolver(pathList, localPathDict, fs.dirs);
    entries := new Entry[|paths|](_ => Untouched);
    pathList', localPathDict' := pathList, localPathDict;
    doGetData, wasCheckOut, error := false, false, None;
    var i := 0;
    while i < |paths| && error.None?
      invariant i <= |paths|
      invariant fs.files == old(fs.files)
      invariant forall j :: i <= j < |paths| ==> entries[j] == Untouched
      invariant var plan := ClassifyRecords(opts, fs.files, r0, paths, infos, i);
        plan.resolver == Resolver(pathList', localPathDict', fs.dirs) && plan.error == error
        && plan.doGetData == doGetData && plan.wasCheckOut == wasCheckOut
        && (error.None? ==> plan.entries == entries[..i])
    {
      pathList', localPathDict', doGetData, wasCheckOut, error :=
        ClassifyRecord(opts, fs, entries, i, paths[i], infos, pathList', localPathDict', doGetData, wasCheckOut);
      i := i + 1;
    }
    if error.Some? {
      ClassifyRecordsErrSticks(opts, fs.files, r0, paths, infos, i, |paths|);
    } else {
      assert entries[..] == entries[..i];
    }
  }

  /**
   * GetLatestReplaceFile with checkedOut null: the file gets the new bytes,
   * the stamp (the write time when fileTime is MinValue) and ReadOnly.
   */
  method GetLatestReplaceFile(fs: FileSystem, localPath: string, data: Bytes, fileTime: int, now: int)
    modifies fs
    ensures var key := Canon(localPath);
      fs.files == old(fs.files)[key := LocalFile(data, true, Stamp(fileTime, now), key in old(fs.files) && old(fs.files)[key].locked)]
    ensures fs.dirs == old(fs.dirs)
  {
    fs.WriteAllBytes(localPath, data, now);
    if fileTime != MinValue {
      fs.SetLastWriteTimeUtc(localPath, fileTime);
    }
    fs.SetAttributes(localPath, ReadOnly);
  }

  /** The decompression loop of QueueAll, in place over the data array. */
  method DecompressData(buffer: array<Option<Bytes>>, decompress: Bytes -> Bytes)
    modifies buffer
    ensures buffer[..] == DecompressAll(old(buffer[..]), decompress)
  {
    ghost var raw := buffer[..];
    var i := 0;
    while i < buffer.Length
      invariant i <= buffer.Length
      invariant forall j :: 0 <= j < i ==> buffer[j] == DecompressAll(raw, decompress)[j]
      invariant forall j :: i <= j < buffer.Length ==> buffer[j] == raw[j]
    {
      if buffer[i].Some? {
        buffer[i] := Some(decompress(buffer[i].value));
      }
      i := i + 1;
    }
  }

  /** One index of the save loop of QueueAll. */
  method SaveEntry(fs: FileSystem, e: Entry, d: Option<Bytes>, now: int)
    modifies fs
    ensures fs.files == WriteEntry(old(fs.files), e, d, now) && fs.dirs == old(fs.dirs)
  {
    if d.None? || e.localPath.None? || e.path.None? || e.doCheckOut {
      if e.localPath.Some? && fs.Exists(e.localPath.value) {
        fs.SetAttributes(e.localPath.value, if e.setNormal then Normal else ReadOnly);
      }
    } else {
      GetLatestReplaceFile(fs, e.localPath.value, d.value, e.fileTime, now);
      if e.setNormal && fs.Exists(e.localPath.value) {
        fs.SetAttributes(e.localPath.value, Normal);
      }
    }
  }

  /**
   * The save loop of QueueAll: each slot with data and both paths that is
   * not a pending checkout is rewritten, every other slot with a local file
   * only re-attributed; an index past the slot arrays throws, and the
   * exception is queued.
   */
  method SaveData(fs: FileSystem, entries: array<Entry>, buffer: array<Option<Bytes>>, now: int, funnel: ErrorFunnel)
    modifies fs, funnel
    ensures var o := WriteStage(old(fs.files), entries[..], buffer[..], now);
      fs.files == o.files && fs.dirs == old(fs.dirs)
      && funnel.queue == old(funnel.queue) + if o.raised.Some? then [o.raised.value] else []
  {
    ghost var files0 := fs.files;
    var k := 0;
    while k < buffer.Length
      invariant k <= buffer.Length && k <= entries.Length
      invariant fs.files == WriteUpTo(files0, entries[..], buffer[..], now, k)
      invariant fs.dirs == old(fs.dirs) && funnel.queue == old(funnel.queue)
    {
      if k >= entries.Length {
        funnel.Report(IndexOutOfRange(k));
        return;
      }
      SaveEntry(fs, entries[k], buffer[k], now);
      k := k + 1;
    }
  }

  /**
   * QueueAll: fetches the block's data (a failure is queued), decompresses
   * it in place, then saves it; an exception of the save loop is queued too.
   */
  method QueueAll(opts: SyncOptions, fs: FileSystem, entries: array<Entry>, data: Result<seq<Option<Bytes>>, Error>, funnel: ErrorFunnel)
    modifies fs, funnel
    ensures var o := FetchAndWrite(opts, old(fs.files), entries[..], data);
      fs.files == o.files && fs.dirs == old(fs.dirs)
      && funnel.queue == old(funnel.queue) + if o.raised.Some? then [o.raised.value] else []
  {
    if data.Err? {
      funnel.Report(data.error);
      return;
    }
    var raw := data.value;
    var buffer := new Option<Bytes>[|raw|](j requires 0 <= j < |raw| => raw[j]);
    assert buffer[..] == raw;
    DecompressData(buffer, opts.decompress);
    SaveData(fs, entries, buffer, opts.now, funnel);
  }

  /**
   * The checkout block: collects the slots marked for checkout, checks
   * them out (the service's exception propagates), builds the access
   * dictionary, and makes every item that was not refused writable.
   */
  method CheckOutBlock(fs: FileSystem, entries: array<Entry>, accessInfo: Result<Option<seq<AccessDeniedInfo>>, Error>)
    returns (thrown: Option<Error>)
    requires CheckOutReady(entries[..])
    modifies fs
    ensures var o := CheckOutStage(old(fs.files), entries[..], accessInfo);
      fs.files == o.files && fs.dirs == old(fs.dirs) && thrown == o.raised
  {
    var items: seq<CheckOutItem> := [];
    var i := 0;
    while i < entries.Length
      invariant i <= entries.Length
      invariant items == CheckOutList(entries[..], i)
    {
      if entries[i].doCheckOut {
        items := items + [CheckOutItem(entries[i].path.value, GetDirectory(entries[i].localPath.value))];
      }
      i := i + 1;
    }
    assert entries[..] == entries[..i];
    if accessInfo.Err? {
      return Some(accessInfo.error);
    }
    var accessDict := CreateAccessDict(accessInfo.value);
    if accessDict.Err? {
      return Some(accessDict.error);
    }
    ghost var files0 := fs.files;
    var k := 0;
    while k < |items|
      invariant k <= |items|
      invariant fs.files == ApplyGrants(files0, items, accessDict.value, k) && fs.dirs == old(fs.dirs)
    {
      var local := Combine(items[k].localFolder, GetFile(items[k].path));
      if accessDict.value.None? || k !in accessDict.value.value {
        fs.SetAttributes(local, Normal);
      }
      k := k + 1;
    }
    return None;
  }

  /** QueueBlock: asks the service for the next block; a failure is queued and blockInfo is kept. */
  method QueueBlock(replies: seq<BlockReply>, c: Cursor, funnel: ErrorFunnel) returns (c': Cursor)
    modifies funnel
    ensures (c', funnel.queue) == Prefetch(replies, c, old(funnel.queue))
  {
    match ReplyAt(replies, c.next).block
    case Ok(b) =>
      c' := Cursor(c.next + 1, c.next, b);
    case Err(e) =>
      funnel.Report(e);
      c' := c.(next := c.next + 1);
  }

  /**
   * The loop body of GetLatestVersion for a block that carries records:
   * the record loop, the checkpoint, QueueAll when some file wants data,
   * and the checkout block when some file is marked for checkout.
   */
  method RunBlock(opts: SyncOptions, fs: FileSystem, funnel: ErrorFunnel, pathList: seq<string>, localPathDict: map<string, string>,
                  paths: seq<int>, infos: seq<FileStateInfo>, reply: BlockReply)
    returns (pathList': seq<string>, localPathDict': map<string, string>, thrown: Option<Error>)
    modifies fs, funnel
    ensures var s := ProcessBlock(opts, RunState(Resolver(pathList, localPathDict, old(fs.dirs)), old(fs.files), old(funnel.queue)), paths, infos, reply);
      s.thrown == thrown && s.st == RunState(Resolver(pathList', localPathDict', fs.dirs), fs.files, funnel.queue)
  {
    ghost var st := RunState(Resolver(pathList, localPathDict, fs.dirs), fs.files, funnel.queue);
    var entries, doGetData, wasCheckOut, error;
    pathList', localPathDict', entries, doGetData, wasCheckOut, error := ClassifyBlock(opts, fs, pathList, localPathDict, paths, infos);
    if error.Some? {
      return pathList', localPathDict', error;
    }
    PlanReady(opts, st.files, st.resolver, paths, infos);
    thrown := funnel.ProcessException();
    if thrown.Some? {
      return;
    }
    if doGetData {
      QueueAll(opts, fs, entries, reply.data, funnel);
    }
    if wasCheckOut {
      thrown := CheckOutBlock(fs, entries, reply.accessInfo);
    }
  }

  /**
   * GetLatestVersion: cleans the local project folder, then reads block
   * after block until the service says no more follow, classifying,
   * fetching, writing and checking out as it goes.  It returns true, or
   * throws the first exception it meets.
   */
  method GetLatestVersion(opts: SyncOptions, fs: FileSystem, topFiles: seq<string>, topDirs: seq<string>, replies: seq<BlockReply>)
    returns (r: Result<bool, Error>)
    modifies fs
    ensures var o := GetLatestVersionSpec(opts, old(fs.files), old(fs.dirs), topFiles, topDirs, replies);
      r == o.result && fs.files == o.files && fs.dirs == o.dirs
  {
    CleanUpDirectory(fs, opts.localProjectPath, topFiles, topDirs);
    var funnel := new ErrorFunnel();
    var pathList: seq<string> := [];
    var localPathDict: map<string, string> := map[];
    var c := QueueBlock(replies, Cursor(0, 0, EmptyBlock), funnel);
    ghost var final := RunFrom(opts, replies, c, RunState(Resolver(pathList, localPathDict, fs.dirs), fs.files, funnel.queue));
    assert final == GetLatestVersionSpec(opts, old(fs.files), old(fs.dirs), topFiles, topDirs, replies);
    while true
      invariant InStream(replies, c)
      invariant RunFrom(opts, replies, c, RunState(Resolver(pathList, localPathDict, fs.dirs), fs.files, funnel.queue)) == final
      decreases |replies| + 1 - c.next
    {
      ghost var st := RunState(Resolver(pathList, localPathDict, fs.dirs), fs.files, funnel.queue);
      var raised := funnel.ProcessException();
      if raised.Some? {
        return Err(raised.value);
      }
      if !c.info.last {
        return Ok(true);
      }
      var block := c.info;
      var reply := ReplyAt(replies, c.cur);
      c := QueueBlock(replies, c, funnel);
      if block.paths.Some? && block.blockIndex >= 0 {
        var thrown;
        pathList, localPathDict, thrown := RunBlock(opts, fs, funnel, pathList, localPathDict, block.paths.value, block.info, reply);
        if thrown.Some? {
          return Err(thrown.value);
        }
      }
    }
  }
}
