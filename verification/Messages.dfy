/** The messages of one `SendToOtherDevices` stream. */
module Messages {
  import opened Basics
  import opened Paths
  import opened Kanbans

  /** `UploadRequestCode`; the wire format also admits numbers without a name. */
  datatype Code =
    | SendingKanban
    | SendingFileCont
    | SendingFileEof
    | SendingFileFailed
    | Eos
    | SendingFileInfo
    | EndOfSendingFile
    | SendingDirInfo
    | EndOfSendingDir
    | SendingStatus
    | Unnamed(number: int)

  datatype FileInfo = FileInfo(size: int, chunkCnt: int, hash: Bytes, name: PathText, relDir: PathText)

  datatype DirInfo = DirInfo(fileCnt: int, dirName: PathText, relParentPath: PathText)

  datatype Chunk = Chunk(context: Bytes, name: PathText, refNum: int)

  /** What the `Any` payload unpacks to; unpacking it as another type is an error. */
  datatype Body =
    | KanbanBody(kanban: SendKanban)
    | FileBody(file: FileInfo)
    | DirBody(dir: DirInfo)
    | ChunkBody(chunk: Chunk)
    | StreamBody(fileCount: int)
    | NoBody

  datatype Message = Message(code: Code, body: Body)

  const CHUNK_SIZE: nat := 128 * 1024
}
