/**
 * A whole GetLatestVersion run as a function of the remote service's
 * replies: the block loop with its prefetch, the checkpoint that hands over
 * queued exceptions, and the per-block stages.
 */
module Run {
  import opened Wrappers
  import opened Paths
  import opened VcsTypes
  import opened VcsHelpers
  import opened FileSystems
  import opened Reconcile
  import opened Pipeline

  /** What the loop carries between iterations: resolver (with the existing directories), disk, and exceptionQueue. */
  datatype RunState = RunState(resolver: Resolver, files: map<string, LocalFile>, queue: seq<Error>)

  /** The end of a run: the disk, and the value GetLatestVersion returns or the exception it throws. */
  datatype RunOutcome = RunOutcome(files: map<string, LocalFile>, dirs: set<string>, result: Result<bool, Error>)

  /** A freshly constructed BlockInfo: no paths, Last false. */
  const EmptyBlock: BlockInfo := BlockInfo(0, 0, None, [], false)

  // ---------------------------------------------------------------------------
  // The checkpoint after classification

  /** getDataEvent after the checkpoint, and what the checkpoint throws. */
  datatype Gate = Gate(signalled: bool, raised: Option<Error>, rest: seq<Error>)

  /**
   * The checkpoint as written, entered with getDataEvent signalled.  With a
   * fetch it is WaitOne, Set, ProcessException (QueueAll signals the event
   * again after the Reset); without one it is WaitOne, ProcessException,
   * Set, so a thrown exception skips the Set.
   */
  function CheckpointAsWritten(doGetData: bool, queue: seq<Error>): (g: Gate)
    ensures Drained(g.raised, g.rest) == Drain(queue)
  {
    var d := Drain(queue);
    if doGetData then Gate(true, d.raised, d.rest)
    else Gate(d.raised.None?, d.raised, d.rest)
  }

  /**
   * The finally block waits on getDataEvent; once the loop has been left
   * nothing signals it any more, so the wait returns only if the event is
   * already signalled.
   */
  predicate FinallyReturns(g: Gate) { g.signalled }

  /**
   * As written, an exception that is pending when a block needs no fetch
   * leaves getDataEvent unsignalled: the finally block waits forever and
   * the exception never reaches the caller.
   */
  lemma CheckpointAsWrittenHangs(queue: seq<Error>)
    requires queue != []
    ensures CheckpointAsWritten(false, queue).raised == Some(InProcessThreadError(queue[0]))
    ensures !FinallyReturns(CheckpointAsWritten(false, queue))
  {
    assert Drain(queue).raised.Some?;
  }

  /** The checkpoint with the event signalled before the queue is drained, in both branches. */
  function Checkpoint(queue: seq<Error>): (g: Gate)
    ensures Drained(g.raised, g.rest) == Drain(queue)
    ensures FinallyReturns(g)
  {
    var d := Drain(queue);
    Gate(true, d.raised, d.rest)
  }

  /**
   * The corrected checkpoint throws exactly what the written one throws,
   * and the finally block always returns after it.
   */
  lemma CheckpointAgrees(doGetData: bool, queue: seq<Error>)
    ensures Checkpoint(queue).raised == CheckpointAsWritten(doGetData, queue).raised
    ensures Checkpoint(queue).rest == CheckpointAsWritten(doGetData, queue).rest
    ensures CheckpointAsWritten(doGetData, queue).signalled <==> doGetData || queue == []
  {
  }

  // ---------------------------------------------------------------------------
  // One block

  /** The state after a piece of the loop body, and the exception it throws, if any. */
  datatype Step = Step(st: RunState, thrown: Option<Error>)

  /** Every slot of a classified block is well formed, so the checkout stage can read its paths. */
  lemma PlanReady(opts: SyncOptions, files: map<string, LocalFile>, r0: Resolver, paths: seq<int>, infos: seq<FileStateInfo>)
    requires ClassifyRecords(opts, files, r0, paths, infos, |paths|).error.None?
    ensures CheckOutReady(ClassifyRecords(opts, files, r0, paths, infos, |paths|).entries)
  {
    ClassifyRecordsShape(opts, files, r0, paths, infos, |paths|);
  }

  /** After the classification of a block: the checkpoint, the fetch and write stage, the checkout stage. */
  function AfterClassify(opts: SyncOptions, st: RunState, plan: BlockPlan, reply: BlockReply): (s: Step)
    requires plan.error.None? && CheckOutReady(plan.entries)
    ensures s.st.resolver == plan.resolver
    ensures Drain(st.queue).raised.Some? ==> s == Step(st.(resolver := plan.resolver, queue := Drain(st.queue).rest), Drain(st.queue).raised)
  {
    var gate := Checkpoint(st.queue);
    if gate.raised.Some? then Step(st.(resolver := plan.resolver, queue := gate.rest), gate.raised)
    else
      var w := if plan.doGetData then FetchAndWrite(opts, st.files, plan.entries, reply.data) else Outcome(st.files, None);
      var queue := gate.rest + if w.raised.Some? then [w.raised.value] else [];
      if plan.wasCheckOut then
        var c := CheckOutStage(w.files, plan.entries, reply.accessInfo);
        Step(RunState(plan.resolver, c.files, queue), c.raised)
      else Step(RunState(plan.resolver, w.files, queue), None)
  }

  /**
   * The loop body for a block that carries records (Paths not null,
   * BlockIndex not negative).  Its content comes from the stage contracts:
   * ClassifyRecordsShape and ClassifyRecordsResolver for classification,
   * AfterClassify for the checkpoint, FetchAndWrite for the writes and
   * CheckOutStage for the checkout.
   */
  function ProcessBlock(opts: SyncOptions, st: RunState, paths: seq<int>, infos: seq<FileStateInfo>, reply: BlockReply): (s: Step)
    ensures Extends(st.resolver, s.st.resolver)
  {
    var plan := ClassifyRecords(opts, st.files, st.resolver, paths, infos, |paths|);
    ClassifyRecordsResolver(opts, st.files, st.resolver, paths, infos, |paths|);
    if plan.error.Some? then Step(st.(resolver := plan.resolver), plan.error)
    else
      PlanReady(opts, st.files, st.resolver, paths, infos);
      AfterClassify(opts, st, plan, reply)
  }

  // ---------------------------------------------------------------------------
  // The block loop

  /** The loop position: the next reply to fetch, the reply that filled blockInfo, and blockInfo. */
  datatype Cursor = Cursor(next: nat, cur: nat, info: BlockInfo)

  /** The stream can still be read at `c`: past the replies, blockInfo says no more blocks follow. */
  predicate InStream(replies: seq<BlockReply>, c: Cursor) {
    c.next <= |replies| + 1 && (c.next == |replies| + 1 ==> !c.info.last)
  }

  /** QueueBlock: a delivered block replaces blockInfo; a failure is queued and blockInfo is kept. */
  function Prefetch(replies: seq<BlockReply>, c: Cursor, queue: seq<Error>): (p: (Cursor, seq<Error>))
    ensures p.0.next == c.next + 1
    ensures ReplyAt(replies, c.next).block.Ok? ==> p == (Cursor(c.next + 1, c.next, ReplyAt(replies, c.next).block.value), queue)
    ensures ReplyAt(replies, c.next).block.Err? ==> p == (c.(next := c.next + 1), queue + [ReplyAt(replies, c.next).block.error])
  {
    match ReplyAt(replies, c.next).block
    case Ok(b) => (Cursor(c.next + 1, c.next, b), queue)
    case Err(e) => (c.(next := c.next + 1), queue + [e])
  }

  /** The state in which the loop ends. */
  function Finish(st: RunState, result: Result<bool, Error>): RunOutcome {
    RunOutcome(st.files, st.resolver.dirs, result)
  }

  /**
   * The loop from cursor `c` in state `st`: drain one queued exception,
   * stop when blockInfo says no more blocks follow, prefetch the next
   * block, then process the current one.  The loop ends in `return true`
   * or an exception.
   */
  function RunFrom(opts: SyncOptions, replies: seq<BlockReply>, c: Cursor, st: RunState): (o: RunOutcome)
    requires InStream(replies, c)
    ensures o.result.Ok? ==> o.result.value
    decreases |replies| + 1 - c.next
  {
    var top := Drain(st.queue);
    if top.raised.Some? then Finish(st, Err(top.raised.value))
    else if !c.info.last then Finish(st, Ok(true))
    else
      var (c', queue) := Prefetch(replies, c, top.rest);
      var b := c.info;
      var step := if b.paths.Some? && b.blockIndex >= 0
                  then ProcessBlock(opts, st.(queue := queue), b.paths.value, b.info, ReplyAt(replies, c.cur))
                  else Step(st.(queue := queue), None);
      if step.thrown.Some? then Finish(step.st, Err(step.thrown.value))
      else RunFrom(opts, replies, c', step.st)
  }

  /** The first QueueBlock, before the loop, into a fresh BlockInfo. */
  function Start(replies: seq<BlockReply>): (p: (Cursor, seq<Error>))
    ensures InStream(replies, p.0)
  {
    Prefetch(replies, Cursor(0, 0, EmptyBlock), [])
  }

  /**
   * GetLatestVersion: CleanUpDirectory of the local project path over its
   * listing, then the block loop from an empty pathList and localPathDict.
   * It returns true or throws; it never returns false.
   */
  function GetLatestVersionSpec(opts: SyncOptions, files: map<string, LocalFile>, dirs: set<string>,
                                topFiles: seq<string>, topDirs: seq<string>, replies: seq<BlockReply>): (o: RunOutcome)
    ensures o.result.Ok? ==> o.result.value
  {
    var r0 := Resolver([], map[], CleanedDirs(dirs, opts.localProjectPath, topDirs));
    var (c, queue) := Start(replies);
    RunFrom(opts, replies, c, RunState(r0, CleanedFiles(files, topFiles, topDirs), queue))
  }

  // ---------------------------------------------------------------------------
  // Properties of a run

  /** A queued exception is thrown at the top of the next iteration, ahead of anything else. */
  lemma QueuedErrorSurfaces(opts: SyncOptions, replies: seq<BlockReply>, c: Cursor, st: RunState)
    requires InStream(replies, c) && st.queue != []
    ensures RunFrom(opts, replies, c, st) == Finish(st, Err(InProcessThreadError(st.queue[0])))
  {
    assert Drain(st.queue).raised == Some(InProcessThreadError(st.queue[0]));
  }

  /** The stages of one block never delete a file; they may only add files. */
  lemma ProcessBlockKeepsFiles(opts: SyncOptions, st: RunState, paths: seq<int>, infos: seq<FileStateInfo>, reply: BlockReply)
    ensures st.files.Keys <= ProcessBlock(opts, st, paths, infos, reply).st.files.Keys
  {
    var plan := ClassifyRecords(opts, st.files, st.resolver, paths, infos, |paths|);
    if plan.error.None? && Drain(st.queue).raised.None? {
      PlanReady(opts, st.files, st.resolver, paths, infos);
      var w := if plan.doGetData then FetchAndWrite(opts, st.files, plan.entries, ReplyAt([reply], 0).data) else Outcome(st.files, None);
      if plan.doGetData && reply.data.Ok? {
        var data := DecompressAll(reply.data.value, opts.decompress);
        var n := if |data| <= |plan.entries| then |data| else |plan.entries|;
        WriteUpToFrame(st.files, plan.entries, data, opts.now, n);
      }
      if plan.wasCheckOut && reply.accessInfo.Ok? && AccessDictOf(reply.accessInfo.value).Ok? {
        var items := CheckOutList(plan.entries, |plan.entries|);
        ApplyGrantsSpec(w.files, items, AccessDictOf(reply.accessInfo.value).value, |items|);
      }
    }
  }

  /**
   * From any iteration on, the run only appends to pathList, only adds keys
   * to localPathDict, only creates directories and never deletes a file.
   */
  lemma {:induction false} RunFromGrows(opts: SyncOptions, replies: seq<BlockReply>, c: Cursor, st: RunState)
    requires InStream(replies, c)
    ensures var o := RunFrom(opts, replies, c, st);
      st.files.Keys <= o.files.Keys && st.resolver.dirs <= o.dirs
    decreases |replies| + 1 - c.next
  {
    var top := Drain(st.queue);
    if top.raised.None? && c.info.last {
      var (c', queue) := Prefetch(replies, c, top.rest);
      var b := c.info;
      var st1 := st.(queue := queue);
      if b.paths.Some? && b.blockIndex >= 0 {
        var step := ProcessBlock(opts, st1, b.paths.value, b.info, ReplyAt(replies, c.cur));
        ProcessBlockKeepsFiles(opts, st1, b.paths.value, b.info, ReplyAt(replies, c.cur));
        ClassifyRecordsResolver(opts, st1.files, st1.resolver, b.paths.value, b.info, |b.paths.value|);
        if step.thrown.None? {
          RunFromGrows(opts, replies, c', step.st);
        }
      } else {
        RunFromGrows(opts, replies, c', st1);
      }
    }
  }

  /**
   * An empty stream: the service has no block, the first QueueBlock says
   * no more follow, and the run returns true after the cleanup alone.
   */
  lemma EmptyStreamRun(opts: SyncOptions, files: map<string, LocalFile>, dirs: set<string>, topFiles: seq<string>, topDirs: seq<string>)
    ensures GetLatestVersionSpec(opts, files, dirs, topFiles, topDirs, [])
         == RunOutcome(CleanedFiles(files, topFiles, topDirs), CleanedDirs(dirs, opts.localProjectPath, topDirs), Ok(true))
  {
    var (c, queue) := Start([]);
    assert queue == [] && !c.info.last;
  }

  /**
   * The input behind the hang: a first block with no records to fetch (a
   * single project marker), whose prefetch of the next block fails, so the
   * block reaches the no-fetch checkpoint with that failure queued.  With
   * the corrected checkpoint the failure is thrown by GetLatestVersion; the
   * checkpoint as written throws the same exception with getDataEvent left
   * unsignalled.
   */
  lemma QuietBlockWithFailedPrefetch(opts: SyncOptions)
    requires opts.buildTree && opts.localProjectPath == "C:\\work" && opts.vcsPath == "$/Project"
    ensures var marker := FileStateInfo(true, "", "", false, false, "", [], 0, 0);
      var failure := RemoteFailure("GetNextBlockInfo2");
      var block := BlockInfo(1, 0, Some([0]), [marker], true);
      var replies := [BlockReply(Ok(block), Ok([]), Ok(None)), BlockReply(Err(failure), Ok([]), Ok(None))];
      var r0 := Resolver([], map[], CleanedDirs({}, opts.localProjectPath, []));
      var plan := ClassifyRecords(opts, CleanedFiles(map[], [], []), r0, [0], [marker], 1);
      var queue := Prefetch(replies, Cursor(1, 0, block), []).1;
      Start(replies) == (Cursor(1, 0, block), [])
      && plan.error.None? && !plan.doGetData
      && queue == [failure]
      && GetLatestVersionSpec(opts, map[], {}, [], [], replies).result == Err(InProcessThreadError(failure))
      && !FinallyReturns(CheckpointAsWritten(plan.doGetData, queue))
  {
    var marker := FileStateInfo(true, "", "", false, false, "", [], 0, 0);
    var failure := RemoteFailure("GetNextBlockInfo2");
    var block := BlockInfo(1, 0, Some([0]), [marker], true);
    var replies := [BlockReply(Ok(block), Ok([]), Ok(None)), BlockReply(Err(failure), Ok([]), Ok(None))];
    var r0 := Resolver([], map[], CleanedDirs({}, opts.localProjectPath, []));
    var st := RunState(r0, CleanedFiles(map[], [], []), []);
    var c := Cursor(1, 0, block);
    assert Start(replies) == (c, []);
    var start := BlockPlan(r0, [], false, false, None);
    assert ClassifyRecords(opts, st.files, r0, [0], [marker], 0) == start;
    var res := ResolveMarker(opts, r0, marker);
    assert res.error.None?;
    var plan := ClassifyRecords(opts, st.files, r0, [0], [marker], 1);
    assert plan == StepRecord(opts, st.files, start, 0, [marker], 0);
    assert plan.error.None? && !plan.doGetData;
    assert ReplyAt(replies, c.next).block == Err(failure);
    assert [] + [failure] == [failure];
    assert Prefetch(replies, c, []) == (c.(next := 2), [failure]);
    CheckpointAsWrittenHangs([failure]);
  }
}
