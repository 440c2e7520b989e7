/**
 * The small helpers of DXVcsRepository that GetLatestVersion and its
 * siblings build on: time selection, checkout-ownership test, local
 * modification test, history-request flags, the access-denial dictionary,
 * the error funnel, and the segment decomposition of AddFile/AddProject.
 */
module VcsHelpers {
  import opened Wrappers
  import opened Paths
  import opened VcsTypes

  /** SelectFileTime: the time stamp to give a fetched file. */
  function SelectFileTime(info: FileStateInfo, fileTimeState: FileTime, utcNow: int): (t: int)
    ensures fileTimeState == CheckIn ==> t == info.versionDate
    ensures fileTimeState == Modification ==> t == info.modifiedOn
    ensures fileTimeState != CheckIn && fileTimeState != Modification ==> t == utcNow
  {
    match fileTimeState
    case CheckIn => info.versionDate
    case Modification => info.modifiedOn
    case _ => utcNow
  }

  /** The result of EqualsCheckOutParams together with its `differentHost` out-parameter. */
  datatype CheckOutMatch = CheckOutMatch(same: bool, differentHost: bool)

  /**
   * EqualsCheckOutParams: is the file checked out to this machine, into the
   * folder of `localPath`?  The source is a single expression, so the
   * ensures spell out its two comparisons; ClassifyMissing and
   * MissingFileCreated rely on that decomposed form.
   */
  function EqualsCheckOutParams(info: FileStateInfo, localPath: string, machineName: string): (r: CheckOutMatch)
    ensures r.differentHost <==> !EqualsIgnoreCase(info.checkOutHost, machineName)
    ensures r.same <==> EqualsIgnoreCase(info.checkOutFolder, GetDirectory(localPath)) && !r.differentHost
  {
    var differentHost := !EqualsIgnoreCase(info.checkOutHost, machineName);
    CheckOutMatch(EqualsIgnoreCase(info.checkOutFolder, GetDirectory(localPath)) && !differentHost, differentHost)
  }

  /** The result of GetLocalFileModified together with its `fileState` out-parameter. */
  datatype LocalModification = LocalModification(needWrite: bool, state: FileBaseInfoState)

  /**
   * GetLocalFileModified: an unlocked file must be rewritten exactly when its
   * content hash differs from the remote one; a file whose opening raises an
   * IOException (here: `locked`) reports Locked and no write.  The source is
   * a single comparison, so the ensures state it case by case for
   * ClassifyExisting to use.
   */
  function GetLocalFileModified(info: FileStateInfo, file: LocalFile, hash: Bytes -> Bytes): (m: LocalModification)
    ensures file.locked ==> m == LocalModification(false, Locked)
    ensures !file.locked ==> m.state == Modified && (m.needWrite <==> hash(file.data) != info.hash)
  {
    if file.locked then LocalModification(false, Locked)
    else LocalModification(hash(file.data) != info.hash, Modified)
  }

  datatype ProjectHistoryRequest = ProjectHistoryRequest(
    findUser: Option<string>,
    findComment: Option<string>,
    hideProjectHistory: bool,
    showFileHistory: bool,
    showLabels: bool,
    fromTime: int,
    toTime: int)

  /** `string.IsNullOrEmpty(s) ? null : s` */
  function NullIfEmpty(s: string): Option<string> {
    if s == "" then None else Some(s)
  }

  /** PrepareProjectHistoryRequest: the filter flags of a project-history query. */
  function PrepareProjectHistoryRequest(fromTime: int, toTime: int, findUser: string, findComment: string,
                                        whatItems: HistoryItems, showFileHistory: bool): (r: ProjectHistoryRequest)
    ensures r.findUser == (if findUser == "" then None else Some(findUser))
    ensures r.findComment == (if findComment == "" then None else Some(findComment))
    ensures r.hideProjectHistory <==> whatItems == Labels
    ensures r.showFileHistory <==> whatItems != Labels && showFileHistory
    ensures r.hideProjectHistory ==> !r.showFileHistory
    ensures r.showLabels <==> whatItems != WithoutLabels
    ensures r.fromTime == fromTime && r.toTime == toTime
  {
    var labelsOnly := whatItems == Labels;
    ProjectHistoryRequest(NullIfEmpty(findUser), NullIfEmpty(findComment), labelsOnly, !labelsOnly && showFileHistory,
                          whatItems != WithoutLabels, fromTime, toTime)
  }

  // ---------------------------------------------------------------------------
  // CreateAccessDict

  /** The int Data values among the first n denials. */
  function DeniedKeys(l: seq<AccessDeniedInfo>, n: nat): set<int>
    requires n <= |l|
  {
    set i | 0 <= i < n && l[i].data.IntData? :: l[i].data.value
  }

  /** Two of the first n denials carry the same int Data. */
  predicate HasDuplicateKey(l: seq<AccessDeniedInfo>, n: nat)
    requires n <= |l|
  {
    exists i, j :: 0 <= i < j < n && l[i].data.IntData? && l[j].data.IntData? && l[i].data.value == l[j].data.value
  }

  /** The dictionary built from the first n denials, or the exception Dictionary.Add raises. */
  function AccessDictFrom(l: seq<AccessDeniedInfo>, n: nat): Result<map<int, AccessDeniedInfo>, Error>
    requires n <= |l|
  {
    if n == 0 then Ok(map[])
    else
      match AccessDictFrom(l, n - 1)
      case Err(e) => Err(e)
      case Ok(m) =>
        var a := l[n - 1];
        if !a.data.IntData? then Ok(m)
        else if a.data.value in m then Err(DuplicateAccessKey(a.data.value))
        else Ok(m[a.data.value := a])
  }

  /** CreateAccessDict as a function: null stays null. */
  function AccessDictOf(accessList: Option<seq<AccessDeniedInfo>>): Result<Option<map<int, AccessDeniedInfo>>, Error> {
    match accessList
    case None => Ok(None)
    case Some(l) =>
      match AccessDictFrom(l, |l|)
      case Err(e) => Err(e)
      case Ok(m) => Ok(Some(m))
  }

  /**
   * The dictionary's keys are exactly the int Data values of the denials,
   * each mapped to a denial that carries it; building it fails exactly when
   * two denials carry the same value.
   */
  lemma {:induction false} AccessDictFromSpec(l: seq<AccessDeniedInfo>, n: nat)
    requires n <= |l|
    ensures AccessDictFrom(l, n).Err? <==> HasDuplicateKey(l, n)
    ensures AccessDictFrom(l, n).Ok? ==>
      var m := AccessDictFrom(l, n).value;
      m.Keys == DeniedKeys(l, n) &&
      forall k :: k in m ==> m[k].data == IntData(k) && m[k] in l[..n]
  {
    if n > 0 {
      AccessDictFromSpec(l, n - 1);
      DeniedKeysStep(l, n);
      DuplicateStep(l, n);
      var a := l[n - 1];
      if AccessDictFrom(l, n - 1).Ok? && !(a.data.IntData? && a.data.value in AccessDictFrom(l, n - 1).value) {
        var m := AccessDictFrom(l, n - 1).value;
        assert l[..n] == l[..n - 1] + [a];
        assert forall k :: k in m ==> m[k] in l[..n];
      }
    }
  }

  lemma DeniedKeysStep(l: seq<AccessDeniedInfo>, n: nat)
    requires 0 < n <= |l|
    ensures DeniedKeys(l, n) == DeniedKeys(l, n - 1) + (if l[n - 1].data.IntData? then {l[n - 1].data.value} else {})
  {
  }

  lemma DuplicateStep(l: seq<AccessDeniedInfo>, n: nat)
    requires 0 < n <= |l|
    ensures HasDuplicateKey(l, n) <==>
      HasDuplicateKey(l, n - 1) || (l[n - 1].data.IntData? && l[n - 1].data.value in DeniedKeys(l, n - 1))
  {
    if HasDuplicateKey(l, n) && !HasDuplicateKey(l, n - 1) {
      var i, j :| 0 <= i < j < n && l[i].data.IntData? && l[j].data.IntData? && l[i].data.value == l[j].data.value;
      assert j == n - 1;
      assert l[i].data.value in DeniedKeys(l, n - 1);
    }
    if l[n - 1].data.IntData? && l[n - 1].data.value in DeniedKeys(l, n - 1) {
      var i :| 0 <= i < n - 1 && l[i].data.IntData? && l[i].data.value == l[n - 1].data.value;
      assert HasDuplicateKey(l, n) by { assert l[i].data.value == l[n - 1].data.value; }
    }
  }

  /** CreateAccessDict: the access-denial list indexed by its int Data. */
  method CreateAccessDict(accessList: Option<seq<AccessDeniedInfo>>)
    returns (r: Result<Option<map<int, AccessDeniedInfo>>, Error>)
    ensures r == AccessDictOf(accessList)
    ensures accessList.None? ==> r == Ok(None)
    ensures accessList.Some? ==> (r.Err? <==> HasDuplicateKey(accessList.value, |accessList.value|))
    ensures accessList.Some? && r.Ok? ==>
      r.value.Some? && r.value.value.Keys == DeniedKeys(accessList.value, |accessList.value|)
  {
    if accessList.None? {
      return Ok(None);
    }
    var l := accessList.value;
    var accessDict: map<int, AccessDeniedInfo> := map[];
    var i := 0;
    while i < |l|
      invariant i <= |l|
      invariant AccessDictFrom(l, i) == Ok(accessDict)
    {
      var accessInfo := l[i];
      if accessInfo.data.IntData? {
        if accessInfo.data.value in accessDict {
          r := Err(DuplicateAccessKey(accessInfo.data.value));
          AccessDictFromSpec(l, |l|);
          assert AccessDictFrom(l, i + 1) == Err(DuplicateAccessKey(accessInfo.data.value));
          AccessDictErrSticks(l, i + 1, |l|);
          return;
        }
        accessDict := accessDict[accessInfo.data.value := accessInfo];
      }
      i := i + 1;
    }
    r := Ok(Some(accessDict));
    AccessDictFromSpec(l, |l|);
  }

  lemma {:induction false} AccessDictErrSticks(l: seq<AccessDeniedInfo>, n: nat, m: nat)
    requires n <= m <= |l|
    requires AccessDictFrom(l, n).Err?
    ensures AccessDictFrom(l, m) == AccessDictFrom(l, n)
    decreases m - n
  {
    if m > n {
      AccessDictErrSticks(l, n, m - 1);
    }
  }

  // ---------------------------------------------------------------------------
  // Error funnel

  /** The oldest queued exception, wrapped, and the queue left after taking it. */
  datatype Drained = Drained(raised: Option<Error>, rest: seq<Error>)

  /** ProcessException as a function: takes at most one exception off the queue. */
  function Drain(queue: seq<Error>): (d: Drained)
    ensures |queue| == 0 ==> d.raised == None && d.rest == queue
    ensures |queue| > 0 ==> d.raised == Some(InProcessThreadError(queue[0])) && queue == [queue[0]] + d.rest
  {
    if |queue| == 0 then Drained(None, queue)
    else Drained(Some(InProcessThreadError(queue[0])), queue[1..])
  }

  /**
   * The exception queue shared by the stages of GetLatestVersion.  Only
   * non-null exceptions are ever enqueued, so the source's null test on the
   * dequeued element always passes.
   */
  class ErrorFunnel {
    var queue: seq<Error>

    constructor ()
      ensures queue == []
    {
      queue := [];
    }

    /** `lock (exceptionQueue) { exceptionQueue.Enqueue(ex); }` */
    method Report(e: Error)
      modifies this
      ensures queue == old(queue) + [e]
    {
      queue := queue + [e];
    }

    /** ProcessException: dequeues at most one exception and raises it wrapped. */
    method ProcessException() returns (raised: Option<Error>)
      modifies this
      ensures Drained(raised, queue) == Drain(old(queue))
      ensures old(queue) == [] ==> raised == None && queue == []
      ensures old(queue) != [] ==> raised == Some(InProcessThreadError(old(queue)[0])) && queue == old(queue)[1..]
    {
      if |queue| > 0 {
        var ex := queue[0];
        queue := queue[1..];
        raised := Some(InProcessThreadError(ex));
      } else {
        raised := None;
      }
    }
  }

  // ---------------------------------------------------------------------------
  // AddFile / AddProject

  /** A remote creation call issued by AddFile or AddProject. */
  datatype CreateCall = CreateProject(parent: string, name: string) | CreateFile(parent: string, name: string)

  lemma JoinSnoc(segs: seq<string>, n: nat)
    requires 1 <= n < |segs|
    ensures Join(segs[..n + 1]) == Join(segs[..n]) + "/" + segs[n]
  {
    assert segs[..n + 1][..n] == segs[..n];
  }

  /**
   * AddProject: one CreateProject call per segment after the first, each
   * under the '/'-join of the segments before it.
   */
  method AddProject(vcsPath: string) returns (r: Result<seq<CreateCall>, Error>)
    ensures vcsPath == "" ==> r == Err(InvalidArgument("vcsFile"))
    ensures vcsPath != "" && Split(vcsPath) == [] ==> r == Err(EmptyQueue)
    ensures vcsPath != "" && Split(vcsPath) != [] ==>
      var folders := Split(vcsPath);
      r.Ok? && |r.value| == |folders| - 1 &&
      forall k :: 0 <= k < |r.value| ==> r.value[k] == CreateProject(Join(folders[..k + 1]), folders[k + 1])
  {
    if vcsPath == "" {
      return Err(InvalidArgument("vcsFile"));
    }
    var folders := Split(vcsPath);
    if |folders| == 0 {
      return Err(EmptyQueue);
    }
    // `next` is the head of the queue of folders: everything before it has been dequeued.
    var temp := folders[0];
    var next := 1;
    var calls: seq<CreateCall> := [];
    while next < |folders|
      invariant 1 <= next <= |folders|
      invariant temp == Join(folders[..next])
      invariant |calls| == next - 1
      invariant forall k :: 0 <= k < |calls| ==> calls[k] == CreateProject(Join(folders[..k + 1]), folders[k + 1])
    {
      var folder := folders[next];
      calls := calls + [CreateProject(temp, folder)];
      JoinSnoc(folders, next);
      temp := temp + "/" + folder;
      next := next + 1;
    }
    r := Ok(calls);
  }

  /**
   * AddFile: like AddProject, except that the last segment becomes a
   * CreateFile call (so a path of one segment issues no call at all).
   */
  method AddFile(vcsFile: string) returns (r: Result<seq<CreateCall>, Error>)
    ensures vcsFile == "" ==> r == Err(InvalidArgument("vcsFile"))
    ensures vcsFile != "" && Split(vcsFile) == [] ==> r == Err(EmptyQueue)
    ensures vcsFile != "" && Split(vcsFile) != [] ==>
      var folders := Split(vcsFile);
      r.Ok? && |r.value| == |folders| - 1 &&
      (forall k :: 0 <= k < |r.value| - 1 ==> r.value[k] == CreateProject(Join(folders[..k + 1]), folders[k + 1])) &&
      (|r.value| > 0 ==> r.value[|r.value| - 1] == CreateFile(Join(folders[..|folders| - 1]), folders[|folders| - 1]))
  {
    if vcsFile == "" {
      return Err(InvalidArgument("vcsFile"));
    }
    var folders := Split(vcsFile);
    if |folders| == 0 {
      return Err(EmptyQueue);
    }
    var temp := folders[0];
    var next := 1;
    var calls: seq<CreateCall> := [];
    while next < |folders|
      invariant 1 <= next <= |folders|
      invariant |folders| > 1 ==> next < |folders|
      invariant temp == Join(folders[..next])
      invariant |calls| == next - 1
      invariant forall k :: 0 <= k < |calls| ==> calls[k] == CreateProject(Join(folders[..k + 1]), folders[k + 1])
    {
      var folder := folders[next];
      if next + 1 == |folders| {
        var last := calls + [CreateFile(temp, folder)];
        assert forall k :: 0 <= k < |calls| ==> last[k] == calls[k];
        r := Ok(last);
        return;
      }
      calls := calls + [CreateProject(temp, folder)];
      JoinSnoc(folders, next);
      temp := temp + "/" + folder;
      next := next + 1;
    }
    r := Ok(calls);
  }
}
