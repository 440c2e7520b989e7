/**
 * The records and enumerations DXVcsRepository works with.  Times are
 * DateTime tick counts; DateTime.MinValue is tick 0.
 */
module VcsTypes {
  import opened Wrappers

  type Bytes = seq<bv8>

  const MinValue: int := 0

  datatype FileTime = Default | Current | Modification | CheckIn

  datatype ActionWithCopy = Leave | Replace | CheckOut | CheckOutMerge | Merge

  datatype FileBaseInfoState = Exists | Missing | Modified | Outdated | NeedMerge | Locked | Error

  datatype HistoryItems = AllItems | Labels | WithoutLabels

  datatype FileAttributes = ReadOnly | Normal

  /**
   * One record of a metadata block (FileStateInfo2).  `isNull` marks a project
   * marker, whose `name` is the project path segment and whose
   * `checkOutFolder` is the local-folder hint; otherwise it describes a file.
   */
  datatype FileStateInfo = FileStateInfo(
    isNull: bool,
    name: string,
    checkOutFolder: string,
    checkedOut: bool,
    checkedOutMe: bool,
    checkOutHost: string,
    hash: Bytes,
    versionDate: int,
    modifiedOn: int)

  /** A file on the local disk: its bytes, its ReadOnly attribute, its last-write time, and whether another process holds it open. */
  datatype LocalFile = LocalFile(data: Bytes, readOnly: bool, lastWrite: int, locked: bool)

  /** AccessDeniedInfo.Data is an object: absent, a boxed int, or anything else. */
  datatype AccessData = NoData | IntData(value: int) | OtherData

  datatype AccessDeniedInfo = AccessDeniedInfo(objectName: string, data: AccessData)

  /** The exceptions the modelled code can raise. */
  datatype Error =
    | DuplicateKey(key: string)           // Dictionary<string, string>.Add with a key already present
    | DuplicateAccessKey(index: int)      // Dictionary<int, AccessDeniedInfo>.Add with a key already present
    | IndexOutOfRange(index: int)         // list or array indexed outside its bounds
    | InvalidArgument(name: string)       // ArgumentException from an argument check
    | EmptyQueue                          // Queue<string>.Dequeue on an empty queue
    | RemoteFailure(message: string)      // any exception raised by the remote service
    | InProcessThreadError(cause: Error)  // DXVCSException("In process thread error.", cause)

  /** The parameters of one GetLatestVersion run, with the clock, the hash and the decompressor it consults. */
  datatype SyncOptions = SyncOptions(
    vcsPath: string,
    localProjectPath: string,
    buildTree: bool,
    makeWritable: bool,
    action: ActionWithCopy,          // batchState.ActionToExistFile.Action
    fileTimeState: FileTime,
    now: int,                        // DateTime.UtcNow, frozen for the run
    machineName: string,             // Environment.MachineName
    hash: Bytes -> Bytes,            // DXVCSHelpers.GetHashMD5 of a file's content
    decompress: Bytes -> Bytes)      // DXVCSHelpers.TryToDecompressData

  /**
   * The slots that GetLatestVersion keeps per record index in its parallel
   * arrays restData, localPath, path, fileTime, setNormal, fileExists and
   * doCheckOut (None stands for a null string).
   */
  datatype Entry = Entry(
    restData: bool,
    localPath: Option<string>,
    path: Option<string>,
    fileTime: int,
    setNormal: bool,
    fileExists: bool,
    doCheckOut: bool)

  /** The value of every slot of a freshly allocated set of arrays. */
  const Untouched: Entry := Entry(false, None, None, MinValue, false, false, false)

  /** BlockInfo as filled by GetNextBlockInfo2; `last` is true while MORE blocks follow. */
  datatype BlockInfo = BlockInfo(
    magicPos: int,
    blockIndex: int,
    paths: Option<seq<int>>,
    info: seq<FileStateInfo>,
    last: bool)

  /**
   * What the remote service answers for one block: the block itself (from
   * GetNextBlockInfo2), its data (GetBlockData) and the access-denial list
   * of its batched checkout (Service.CheckOut then TakeAccessInfo, null
   * allowed); an Err is the exception the service call throws.
   */
  datatype BlockReply = BlockReply(
    block: Result<BlockInfo, Error>,
    data: Result<seq<Option<Bytes>>, Error>,
    accessInfo: Result<Option<seq<AccessDeniedInfo>>, Error>)

  /** The service's answer once every block has been delivered. */
  const EndOfStream: BlockReply :=
    BlockReply(Ok(BlockInfo(0, -1, None, [], false)), Ok([]), Ok(None))

  function ReplyAt(replies: seq<BlockReply>, k: nat): BlockReply {
    if k < |replies| then replies[k] else EndOfStream
  }
}
