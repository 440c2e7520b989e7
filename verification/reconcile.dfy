/**
 * The decisions GetLatestVersion takes for each record of a metadata block,
 * as functions: the local path resolver (project markers), the per-file
 * classifier (file records) and their fold over a whole block.
 */
module Reconcile {
  import opened Wrappers
  import opened Paths
  import opened VcsTypes
  import opened VcsHelpers

  /** The run's path state: pathList, the case-insensitive localPathDict (keys folded), and the existing directories. */
  datatype Resolver = Resolver(pathList: seq<string>, localPathDict: map<string, string>, dirs: set<string>)

  /** vcsPath and localProjectPath after the RemoveFinishSlash at the start of the run. */
  function VcsRoot(opts: SyncOptions): string { RemoveFinishSlash(opts.vcsPath) }

  function LocalRoot(opts: SyncOptions): string { RemoveFinishSlash(opts.localProjectPath) }

  /** Every local folder recorded in localPathDict exists on disk. */
  predicate FoldersExist(r: Resolver) {
    forall k :: k in r.localPathDict ==> Canon(r.localPathDict[k]) in r.dirs
  }

  /** `r'` extends `r`: paths are only appended, keys only added, directories only created. */
  predicate Extends(r: Resolver, r': Resolver) {
    |r.pathList| <= |r'.pathList| && r'.pathList[..|r.pathList|] == r.pathList
    && (forall k :: k in r.localPathDict ==> k in r'.localPathDict && r'.localPathDict[k] == r.localPathDict[k])
    && r.dirs <= r'.dirs
  }

  // ---------------------------------------------------------------------------
  // Local path resolver

  function MarkerSegment(info: FileStateInfo): string { RemoveFinishSlash(info.name) }

  /** The remote project a marker opens: vcsPath, or vcsPath + "/" + segment. */
  function ProjectKey(opts: SyncOptions, segment: string): string {
    if segment != "" then VcsRoot(opts) + "/" + segment else VcsRoot(opts)
  }

  /**
   * The local folder of a project marker: under the local root with '\'
   * separators when building the tree, the record's CheckOutFolder otherwise;
   * in both cases without its trailing separator.
   */
  function MarkerFolder(opts: SyncOptions, info: FileStateInfo): (f: string)
    ensures opts.buildTree ==>
      var root := LocalRoot(opts);
      |f| >= |root| && f[..|root|] == root && '/' !in f[|root|..]
    ensures opts.buildTree ==>
      Canon(f) == Canon(RemoveFinishSlash(LocalRoot(opts) + "\\" + MarkerSegment(info)))
    ensures !opts.buildTree ==> f == RemoveFinishSlash(info.checkOutFolder)
  {
    if opts.buildTree then
      var root := LocalRoot(opts);
      JoinBackslashesUnder(root, MarkerSegment(info));
      CanonJoinBackslashes(root, MarkerSegment(info));
      RemoveFinishSlash(root + "\\" + ToBackslashes(MarkerSegment(info)))
    else RemoveFinishSlash(info.checkOutFolder)
  }

  datatype Resolution = Resolution(resolver: Resolver, error: Option<Error>)

  /**
   * A project marker: appends its segment to pathList, creates its folder,
   * and adds exactly one key to localPathDict; a key already present (in any
   * letter case) makes Dictionary.Add throw, after the first two effects.
   */
  function ResolveMarker(opts: SyncOptions, r: Resolver, info: FileStateInfo): (res: Resolution)
    ensures res.resolver.pathList == r.pathList + [MarkerSegment(info)]
    ensures res.resolver.dirs == r.dirs + {Canon(MarkerFolder(opts, info))}
    ensures res.error.Some? <==> Fold(ProjectKey(opts, MarkerSegment(info))) in r.localPathDict
    ensures res.error.Some? ==>
      res.error.value == DuplicateKey(ProjectKey(opts, MarkerSegment(info))) && res.resolver.localPathDict == r.localPathDict
    ensures res.error.None? ==>
      var key := Fold(ProjectKey(opts, MarkerSegment(info)));
      res.resolver.localPathDict.Keys == r.localPathDict.Keys + {key} &&
      res.resolver.localPathDict[key] == MarkerFolder(opts, info) &&
      forall k :: k in r.localPathDict ==> res.resolver.localPathDict[k] == r.localPathDict[k]
    ensures Extends(r, res.resolver)
    ensures FoldersExist(r) ==> FoldersExist(res.resolver)
  {
    var segment := MarkerSegment(info);
    var key := ProjectKey(opts, segment);
    var folder := MarkerFolder(opts, info);
    var grown := r.(pathList := r.pathList + [segment], dirs := r.dirs + {Canon(folder)});
    if Fold(key) in r.localPathDict then Resolution(grown, Some(DuplicateKey(key)))
    else Resolution(grown.(localPathDict := r.localPathDict[Fold(key) := folder]), None)
  }

  // ---------------------------------------------------------------------------
  // Per-file classifier

  /** What one file record contributes: its array slots and the doGetData / wasCheckOut flags it raises. */
  datatype Decision = Decision(entry: Entry, getData: bool, checkOut: bool)

  /** Only fileExists[i] set: the file is left as it is. */
  const Seen: Entry := Untouched.(fileExists := true)

  /** The slots of a file scheduled for fetching. */
  function Scheduled(e: Entry, localPath: string, path: string, t: int, restData: bool): Entry {
    e.(restData := restData, localPath := Some(localPath), path := Some(path), fileTime := t)
  }

  /**
   * An existing local file, before the makeWritable override of the finally
   * block: a locked file is skipped; a read-only one is fetched exactly when
   * its content differs; a writable one is dispatched on the batch action.
   */
  function ClassifyExisting(opts: SyncOptions, info: FileStateInfo, f: LocalFile, localPath: string, path: string): (d: Decision)
    ensures d.entry.fileExists
    ensures f.locked ==> d == Decision(Seen, false, false)
    ensures !f.locked && f.readOnly ==>
      var differs := opts.hash(f.data) != info.hash;
      !d.checkOut && !d.entry.doCheckOut && (d.getData <==> differs) && (d.entry.restData <==> differs)
      && (differs ==> d.entry.localPath == Some(localPath) && d.entry.path == Some(path))
    ensures !f.locked && !f.readOnly && opts.makeWritable && opts.hash(f.data) == info.hash ==>
      d == Decision(Seen, false, false)
    ensures !f.locked && !f.readOnly && !(opts.makeWritable && opts.hash(f.data) == info.hash) ==>
      match opts.action
      case Replace =>
        d.getData && !d.checkOut && d.entry.restData == (opts.hash(f.data) != info.hash)
        && d.entry.localPath == Some(localPath) && d.entry.path == Some(path) && !d.entry.setNormal
      case CheckOut =>
        d.checkOut && !d.getData && !d.entry.restData && d.entry.doCheckOut && d.entry.setNormal
        && d.entry.localPath == Some(localPath) && d.entry.path == Some(path)
      case _ => d == Decision(Seen, false, false)
  {
    var m := GetLocalFileModified(info, f, opts.hash);
    var t := SelectFileTime(info, opts.fileTimeState, opts.now);
    if !m.needWrite && m.state == Locked then Decision(Seen, false, false)
    else if f.readOnly then
      (if m.needWrite then Decision(Scheduled(Seen, localPath, path, t, true), true, false)
       else Decision(Seen, false, false))
    else if opts.makeWritable && !m.needWrite then Decision(Seen, false, false)
    else if opts.action == Replace then Decision(Scheduled(Seen, localPath, path, t, m.needWrite), true, false)
    else if opts.action == Leave then Decision(Seen, false, false)
    else if opts.action == CheckOut then
      Decision(Seen.(localPath := Some(localPath), path := Some(path), doCheckOut := true, setNormal := true), false, true)
    else Decision(Seen, false, false)
  }

  /**
   * No local file: fetched when its folder exists, to be left writable when
   * it is checked out by this user on this machine into this folder and
   * either makeWritable is set or the record is checked out.
   */
  function ClassifyMissing(opts: SyncOptions, info: FileStateInfo, folderExists: bool, localPath: string, path: string): (d: Decision)
    ensures !folderExists ==> d == Decision(Untouched, false, false)
    ensures folderExists ==>
      d.getData && !d.checkOut && d.entry.restData && !d.entry.fileExists && !d.entry.doCheckOut
      && d.entry.localPath == Some(localPath) && d.entry.path == Some(path)
      && d.entry.fileTime == SelectFileTime(info, opts.fileTimeState, opts.now)
      && (d.entry.setNormal <==>
            (opts.makeWritable || info.checkedOut) && info.checkedOutMe
            && EqualsIgnoreCase(info.checkOutFolder, GetDirectory(localPath))
            && EqualsIgnoreCase(info.checkOutHost, opts.machineName))
  {
    if folderExists then
      var setNormal := (opts.makeWritable || info.checkedOut) && info.checkedOutMe
                       && EqualsCheckOutParams(info, localPath, opts.machineName).same;
      Decision(Scheduled(Untouched, localPath, path, SelectFileTime(info, opts.fileTimeState, opts.now), true).(setNormal := setNormal), true, false)
    else Decision(Untouched, false, false)
  }

  /** The finally block: with makeWritable, whatever ran before, the file gets its local path, Normal and a fetch. */
  function ForceWritable(opts: SyncOptions, d: Decision, localPath: string): (r: Decision)
    ensures !opts.makeWritable ==> r == d
    ensures opts.makeWritable ==>
      r.getData && r.checkOut == d.checkOut && r.entry.localPath == Some(localPath) && r.entry.setNormal
      && r.entry.restData == d.entry.restData && r.entry.path == d.entry.path
      && r.entry.doCheckOut == d.entry.doCheckOut && r.entry.fileTime == d.entry.fileTime
      && r.entry.fileExists == d.entry.fileExists
  {
    if opts.makeWritable then Decision(d.entry.(localPath := Some(localPath), setNormal := true), true, d.checkOut)
    else d
  }

  /** The local file path and remote path of a file record of a resolved project. */
  function LocalFilePath(folder: string, info: FileStateInfo): string { folder + "\\" + info.name }

  function RemoteFilePath(project: string, info: FileStateInfo): string { project + "/" + info.name }

  /**
   * A file record: `pathList[p]` names its project; an unresolved project
   * leaves every slot untouched; otherwise the file is classified against
   * the disk and the makeWritable override is applied.
   */
  function ClassifyFile(opts: SyncOptions, r: Resolver, files: map<string, LocalFile>, p: int, info: FileStateInfo): (res: Result<Decision, Error>)
    ensures !(0 <= p < |r.pathList|) ==> res == Err(IndexOutOfRange(p))
    ensures 0 <= p < |r.pathList| && Fold(Combine(VcsRoot(opts), r.pathList[p])) !in r.localPathDict ==>
      res == Ok(Decision(Untouched, false, false))
    ensures 0 <= p < |r.pathList| && Fold(Combine(VcsRoot(opts), r.pathList[p])) in r.localPathDict ==>
      var project := Combine(VcsRoot(opts), r.pathList[p]);
      var localPath := LocalFilePath(r.localPathDict[Fold(project)], info);
      res.Ok? && (opts.makeWritable ==> res.value.getData && res.value.entry.localPath == Some(localPath) && res.value.entry.setNormal)
      && (res.value.entry.path.Some? ==> res.value.entry.path == Some(RemoteFilePath(project, info)))
  {
    if !(0 <= p < |r.pathList|) then Err(IndexOutOfRange(p))
    else
      var project := Combine(VcsRoot(opts), r.pathList[p]);
      if Fold(project) !in r.localPathDict then Ok(Decision(Untouched, false, false))
      else
        var folder := r.localPathDict[Fold(project)];
        var localPath := LocalFilePath(folder, info);
        var path := RemoteFilePath(project, info);
        var base := if Canon(localPath) in files then ClassifyExisting(opts, info, files[Canon(localPath)], localPath, path)
                    else ClassifyMissing(opts, info, Canon(folder) in r.dirs, localPath, path);
        Ok(ForceWritable(opts, base, localPath))
  }

  // ---------------------------------------------------------------------------
  // A whole block

  /** The state of the classification loop after some records. */
  datatype BlockPlan = BlockPlan(resolver: Resolver, entries: seq<Entry>, doGetData: bool, wasCheckOut: bool, error: Option<Error>)

  /**
   * One iteration of the record loop, for record i with back-reference p; it
   * fills at most the next slot.  StepRecordShape states the slot and flags
   * it adds and StepRecordResolver how the resolver grows.
   */
  function StepRecord(opts: SyncOptions, files: map<string, LocalFile>, acc: BlockPlan, p: int, infos: seq<FileStateInfo>, i: nat): (next: BlockPlan)
    ensures acc.entries <= next.entries && |next.entries| <= |acc.entries| + 1
    ensures i >= |infos| ==> next.error == Some(IndexOutOfRange(i))
  {
    if i >= |infos| then acc.(error := Some(IndexOutOfRange(i)))
    else if infos[i].isNull then
      var res := ResolveMarker(opts, acc.resolver, infos[i]);
      acc.(resolver := res.resolver, entries := acc.entries + [Untouched], error := res.error)
    else
      match ClassifyFile(opts, acc.resolver, files, p, infos[i])
      case Err(e) => acc.(error := Some(e))
      case Ok(d) =>
        acc.(entries := acc.entries + [d.entry], doGetData := acc.doGetData || d.getData,
             wasCheckOut := acc.wasCheckOut || d.checkOut)
  }

  /**
   * The record loop of GetLatestVersion over the first n records; it stops
   * at the first exception.  ClassifyRecordsShape states the slots and flags
   * of a block and ClassifyRecordsResolver how the resolver grows.
   */
  function ClassifyRecords(opts: SyncOptions, files: map<string, LocalFile>, r0: Resolver,
                           paths: seq<int>, infos: seq<FileStateInfo>, n: nat): (plan: BlockPlan)
    requires n <= |paths|
    ensures |plan.entries| <= n
  {
    if n == 0 then BlockPlan(r0, [], false, false, None)
    else
      var prev := ClassifyRecords(opts, files, r0, paths, infos, n - 1);
      if prev.error.Some? then prev
      else StepRecord(opts, files, prev, paths[n - 1], infos, n - 1)
  }

  // ---------------------------------------------------------------------------
  // Properties of the classification

  /** The slot invariants the later stages rely on. */
  predicate WellFormed(e: Entry) {
    (e.doCheckOut ==> e.localPath.Some? && e.path.Some?)
    && (e.path.Some? ==> e.localPath.Some?)
    && (e.restData ==> e.path.Some?)
  }

  /** The flag a file raises for the fetch stage, read off its slots. */
  predicate WantsData(opts: SyncOptions, e: Entry) {
    e.localPath.Some? && (!e.doCheckOut || opts.makeWritable)
  }

  /**
   * Whatever branch classified a file, its slots are well formed, it raises
   * doGetData exactly when it got a local path and is not a pure checkout
   * (or makeWritable holds), and it raises wasCheckOut exactly when it is
   * marked for checkout.
   */
  lemma ClassifyFileShape(opts: SyncOptions, r: Resolver, files: map<string, LocalFile>, p: int, info: FileStateInfo)
    requires ClassifyFile(opts, r, files, p, info).Ok?
    ensures var d := ClassifyFile(opts, r, files, p, info).value;
      WellFormed(d.entry) && (d.getData <==> WantsData(opts, d.entry)) && (d.checkOut <==> d.entry.doCheckOut)
  {
  }

  lemma ExtendsTrans(a: Resolver, b: Resolver, c: Resolver)
    requires Extends(a, b) && Extends(b, c)
    ensures Extends(a, c)
  {
    assert c.pathList[..|b.pathList|][..|a.pathList|] == c.pathList[..|a.pathList|];
  }

  /** One record step only grows the resolver. */
  lemma StepRecordResolver(opts: SyncOptions, files: map<string, LocalFile>, acc: BlockPlan, p: int, infos: seq<FileStateInfo>, i: nat)
    ensures var next := StepRecord(opts, files, acc, p, infos, i);
      Extends(acc.resolver, next.resolver) && (FoldersExist(acc.resolver) ==> FoldersExist(next.resolver))
  {
    var next := StepRecord(opts, files, acc, p, infos, i);
    if !(i < |infos| && infos[i].isNull) {
      assert next.resolver == acc.resolver;
      assert acc.resolver.pathList[..|acc.resolver.pathList|] == acc.resolver.pathList;
    }
  }

  /** A record step without exception appends one well-formed slot and raises the flags that slot calls for. */
  lemma StepRecordShape(opts: SyncOptions, files: map<string, LocalFile>, acc: BlockPlan, p: int, infos: seq<FileStateInfo>, i: nat)
    requires StepRecord(opts, files, acc, p, infos, i).error.None?
    ensures i < |infos|
    ensures var next := StepRecord(opts, files, acc, p, infos, i);
      |next.entries| == |acc.entries| + 1 && next.entries[..|acc.entries|] == acc.entries
      && WellFormed(next.entries[|acc.entries|])
      && (infos[i].isNull ==> next.entries[|acc.entries|] == Untouched)
      && (next.doGetData <==> acc.doGetData || WantsData(opts, next.entries[|acc.entries|]))
      && (next.wasCheckOut <==> acc.wasCheckOut || next.entries[|acc.entries|].doCheckOut)
  {
    if !infos[i].isNull {
      ClassifyFileShape(opts, acc.resolver, files, p, infos[i]);
    }
  }

  /** One iteration of the record loop, exception or not, only grows the resolver. */
  lemma ClassifyRecordsStepResolver(opts: SyncOptions, files: map<string, LocalFile>, r0: Resolver,
                                    paths: seq<int>, infos: seq<FileStateInfo>, n: nat)
    requires 0 < n <= |paths|
    ensures var prev := ClassifyRecords(opts, files, r0, paths, infos, n - 1).resolver;
      var plan := ClassifyRecords(opts, files, r0, paths, infos, n).resolver;
      Extends(prev, plan) && (FoldersExist(prev) ==> FoldersExist(plan))
  {
    var prev := ClassifyRecords(opts, files, r0, paths, infos, n - 1);
    var plan := ClassifyRecords(opts, files, r0, paths, infos, n);
    assert plan == (if prev.error.Some? then prev else StepRecord(opts, files, prev, paths[n - 1], infos, n - 1));
    GuardedStepResolver(opts, files, prev, plan, paths[n - 1], infos, n - 1);
  }

  lemma GuardedStepResolver(opts: SyncOptions, files: map<string, LocalFile>, prev: BlockPlan, plan: BlockPlan,
                            p: int, infos: seq<FileStateInfo>, i: nat)
    requires plan == (if prev.error.Some? then prev else StepRecord(opts, files, prev, p, infos, i))
    ensures Extends(prev.resolver, plan.resolver) && (FoldersExist(prev.resolver) ==> FoldersExist(plan.resolver))
  {
    if prev.error.None? {
      StepRecordResolver(opts, files, prev, p, infos, i);
    } else {
      assert prev.resolver.pathList[..|prev.resolver.pathList|] == prev.resolver.pathList;
    }
  }

  /** The record loop only grows the resolver and keeps every recorded folder existing, exception or not. */
  lemma {:induction false} ClassifyRecordsResolver(opts: SyncOptions, files: map<string, LocalFile>, r0: Resolver,
                                                   paths: seq<int>, infos: seq<FileStateInfo>, n: nat)
    requires n <= |paths|
    ensures var plan := ClassifyRecords(opts, files, r0, paths, infos, n);
      Extends(r0, plan.resolver) && (FoldersExist(r0) ==> FoldersExist(plan.resolver))
  {
    if n == 0 {
      assert r0.pathList[..|r0.pathList|] == r0.pathList;
    } else {
      ClassifyRecordsResolver(opts, files, r0, paths, infos, n - 1);
      ClassifyRecordsStepResolver(opts, files, r0, paths, infos, n);
      ExtendsTrans(r0, ClassifyRecords(opts, files, r0, paths, infos, n - 1).resolver,
                   ClassifyRecords(opts, files, r0, paths, infos, n).resolver);
    }
  }

  /**
   * The record loop over a block without an exception fills one slot per
   * record (markers leave theirs untouched), every slot is well formed, and
   * doGetData and wasCheckOut say whether some slot asks for data or for a
   * checkout.
   */
  lemma {:induction false} ClassifyRecordsShape(opts: SyncOptions, files: map<string, LocalFile>, r0: Resolver,
                                                paths: seq<int>, infos: seq<FileStateInfo>, n: nat)
    requires n <= |paths|
    requires ClassifyRecords(opts, files, r0, paths, infos, n).error.None?
    ensures var plan := ClassifyRecords(opts, files, r0, paths, infos, n);
      |plan.entries| == n && n <= |infos|
      && (forall i :: 0 <= i < n ==> WellFormed(plan.entries[i]))
      && (forall i :: 0 <= i < n && infos[i].isNull ==> plan.entries[i] == Untouched)
      && (plan.doGetData <==> exists i :: 0 <= i < n && WantsData(opts, plan.entries[i]))
      && (plan.wasCheckOut <==> exists i :: 0 <= i < n && plan.entries[i].doCheckOut)
  {
    if n > 0 {
      ClassifyRecordsStepShape(opts, files, r0, paths, infos, n);
      ClassifyRecordsShape(opts, files, r0, paths, infos, n - 1);
      ShapeExtends(opts, infos, ClassifyRecords(opts, files, r0, paths, infos, n - 1), ClassifyRecords(opts, files, r0, paths, infos, n), n);
    }
  }

  /** The shape of the first n-1 slots plus one more slot gives the shape of n slots. */
  lemma ShapeExtends(opts: SyncOptions, infos: seq<FileStateInfo>, prev: BlockPlan, plan: BlockPlan, n: nat)
    requires 0 < n <= |infos|
    requires |prev.entries| == n - 1
      && (forall i :: 0 <= i < n - 1 ==> WellFormed(prev.entries[i]))
      && (forall i :: 0 <= i < n - 1 && infos[i].isNull ==> prev.entries[i] == Untouched)
      && (prev.doGetData <==> exists i :: 0 <= i < n - 1 && WantsData(opts, prev.entries[i]))
      && (prev.wasCheckOut <==> exists i :: 0 <= i < n - 1 && prev.entries[i].doCheckOut)
    requires |plan.entries| == n && plan.entries[..n - 1] == prev.entries
      && WellFormed(plan.entries[n - 1])
      && (infos[n - 1].isNull ==> plan.entries[n - 1] == Untouched)
      && (plan.doGetData <==> prev.doGetData || WantsData(opts, plan.entries[n - 1]))
      && (plan.wasCheckOut <==> prev.wasCheckOut || plan.entries[n - 1].doCheckOut)
    ensures (forall i :: 0 <= i < n ==> WellFormed(plan.entries[i]))
      && (forall i :: 0 <= i < n && infos[i].isNull ==> plan.entries[i] == Untouched)
      && (plan.doGetData <==> exists i :: 0 <= i < n && WantsData(opts, plan.entries[i]))
      && (plan.wasCheckOut <==> exists i :: 0 <= i < n && plan.entries[i].doCheckOut)
  {
    assert forall i :: 0 <= i < n - 1 ==> plan.entries[i] == prev.entries[i];
    if plan.doGetData && !WantsData(opts, plan.entries[n - 1]) {
      var i :| 0 <= i < n - 1 && WantsData(opts, prev.entries[i]);
      assert WantsData(opts, plan.entries[i]);
    }
    if plan.wasCheckOut && !plan.entries[n - 1].doCheckOut {
      var i :| 0 <= i < n - 1 && prev.entries[i].doCheckOut;
      assert plan.entries[i].doCheckOut;
    }
  }

  /** One iteration of the record loop that throws nothing, read off the fold. */
  lemma ClassifyRecordsStepShape(opts: SyncOptions, files: map<string, LocalFile>, r0: Resolver,
                                 paths: seq<int>, infos: seq<FileStateInfo>, n: nat)
    requires 0 < n <= |paths|
    requires ClassifyRecords(opts, files, r0, paths, infos, n).error.None?
    ensures var prev := ClassifyRecords(opts, files, r0, paths, infos, n - 1);
      var plan := ClassifyRecords(opts, files, r0, paths, infos, n);
      prev.error.None? && n - 1 < |infos|
      && |plan.entries| == |prev.entries| + 1 && plan.entries[..|prev.entries|] == prev.entries
      && WellFormed(plan.entries[|prev.entries|])
      && (infos[n - 1].isNull ==> plan.entries[|prev.entries|] == Untouched)
      && (plan.doGetData <==> prev.doGetData || WantsData(opts, plan.entries[|prev.entries|]))
      && (plan.wasCheckOut <==> prev.wasCheckOut || plan.entries[|prev.entries|].doCheckOut)
  {
    GuardedStepShape(opts, files, ClassifyRecords(opts, files, r0, paths, infos, n - 1), ClassifyRecords(opts, files, r0, paths, infos, n),
                     paths[n - 1], infos, n - 1);
  }

  lemma GuardedStepShape(opts: SyncOptions, files: map<string, LocalFile>, prev: BlockPlan, plan: BlockPlan,
                         p: int, infos: seq<FileStateInfo>, i: nat)
    requires plan == (if prev.error.Some? then prev else StepRecord(opts, files, prev, p, infos, i))
    requires plan.error.None?
    ensures prev.error.None? && i < |infos|
      && |plan.entries| == |prev.entries| + 1 && plan.entries[..|prev.entries|] == prev.entries
      && WellFormed(plan.entries[|prev.entries|])
      && (infos[i].isNull ==> plan.entries[|prev.entries|] == Untouched)
      && (plan.doGetData <==> prev.doGetData || WantsData(opts, plan.entries[|prev.entries|]))
      && (plan.wasCheckOut <==> prev.wasCheckOut || plan.entries[|prev.entries|].doCheckOut)
  {
    StepRecordShape(opts, files, prev, p, infos, i);
  }
}
