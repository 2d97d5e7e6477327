/**
 The send-anything receiver: three nested loops over the incoming messages.

 Each loop is first written as a function of the messages still to come (`ParseFile`, `ParseDir`,
 `ParseItems`, `ParseSession`); the methods below run the loops on a mutable stream and file system and
 are proved to compute those functions. Module `Language` says what the functions mean.
 */
module Receiver {
  import opened Basics
  import opened Paths
  import opened FileStore
  import opened Kanbans
  import opened Messages
  import opened Decimal

  datatype OutFile = OutFile(path: AbsPath)

  datatype OutDir = OutDir(fileCnt: nat, path: AbsPath, files: seq<OutFile>)

  /** `outputItemInfo`: what has been received so far. */
  datatype Items = Items(files: seq<OutFile>, dirs: seq<OutDir>)

  function DirList(dirs: seq<OutDir>): seq<PathText> {
    if dirs == [] then [] else DirList(dirs[..|dirs| - 1]) + [Text(dirs[|dirs| - 1].path)]
  }

  function FileList(files: seq<OutFile>): seq<PathText> {
    if files == [] then [] else FileList(files[..|files| - 1]) + [Text(files[|files| - 1].path)]
  }

  /** `outputItemInfo.list`: directories first, then files. */
  function List(items: Items): seq<PathText> {
    DirList(items.dirs) + FileList(items.files)
  }

  lemma {:induction false} ListLength(items: Items)
    ensures |List(items)| == |items.dirs| + |items.files|
    decreases |items.dirs| + |items.files|
  {
    if items.dirs != [] {
      ListLength(Items(items.files, items.dirs[..|items.dirs| - 1]));
    } else if items.files != [] {
      ListLength(Items(items.files[..|items.files| - 1], []));
    }
  }

  function DirFileCnt(dirs: seq<OutDir>): nat {
    if dirs == [] then 0 else DirFileCnt(dirs[..|dirs| - 1]) + dirs[|dirs| - 1].fileCnt
  }

  /** `outputItemInfo.ReceivedFileCnt`. */
  function ReceivedFileCnt(items: Items): nat {
    DirFileCnt(items.dirs) + |items.files|
  }

  /** The result of a loop: what it produced (`None` is an error), the messages left, the file system. */
  datatype Parsed<+T> = Parsed(out: Option<T>, rest: seq<Message>, fs: FS)

  datatype Applied = Applied(ok: bool, fs: FS)

  function RelPath(info: FileInfo): CleanPath {
    JoinTexts(info.relDir, info.name)
  }

  /** Where the received bytes are written ... */
  function WritePath(info: FileInfo, eof: FileInfo, out: AbsPath): AbsPath {
    Join(Join(out, eof.relDir), RelPath(info).parts)
  }

  /** ... and where they are read back to check the hash. */
  function VerifyPath(eof: FileInfo, out: AbsPath): AbsPath {
    Join(Join(out, eof.relDir), eof.name)
  }

  /** The path put on the rewritten file list. */
  function ReportedPath(info: FileInfo, out: AbsPath): AbsPath {
    var rel := RelPath(info);
    if rel.rooted then rel.parts else Join(out, rel.parts)
  }

  /** `receiveEOF`: write the collected bytes, read them back, compare the hash. */
  function Finish(h: Hasher, info: FileInfo, eof: FileInfo, out: AbsPath, bytes: Bytes, fs: FS): Applied {
    var made := MakeAllDirs(fs, Join(out, eof.relDir));
    match Create(made, WritePath(info, eof, out), bytes)
    case None => Applied(false, made)
    case Some(written) =>
      match Digest(h, written, VerifyPath(eof, out))
      case None => Applied(false, written)
      case Some(digest) =>
        if digest == info.hash then Applied(true, written)
        else Applied(false, Remove(written, VerifyPath(eof, out)))
  }

  /** `receiveFileCont`'s checks: the next reference number, and the right file name. */
  predicate ChunkFits(info: FileInfo, next: int, body: Body) {
    body.ChunkBody? && body.chunk.refNum == next && body.chunk.name == Base(RelPath(info))
  }

  /**
   A file's buffer is allocated with the announced size, a directory's list with the announced count; for a negative
   number the allocation panics, so that the session ends without an OK.
   */
  predicate OpensFile(body: Body) {
    body.FileBody? && body.file.size >= 0
  }

  predicate OpensDir(body: Body) {
    body.DirBody? && body.dir.fileCnt >= 0
  }

  function ParseFile(h: Hasher, info: FileInfo, out: AbsPath, stack: Bytes, next: int,
                     ms: seq<Message>, fs: FS): (r: Parsed<OutFile>)
    ensures |r.rest| <= |ms|
    decreases |ms|
  {
    if ms == [] then Parsed(None, [], fs)
    else
      var m, rest := ms[0], ms[1..];
      match m.code
      case SendingFileCont =>
        if ChunkFits(info, next, m.body)
        then ParseFile(h, info, out, stack + m.body.chunk.context, Int32(next + 1), rest, fs)
        else Parsed(None, rest, fs)
      case SendingFileEof =>
        if m.body.FileBody? then
          var a := Finish(h, info, m.body.file, out, stack, fs);
          Parsed(if a.ok then Some(OutFile(ReportedPath(info, out))) else None, rest, a.fs)
        else Parsed(None, rest, fs)
      case _ => Parsed(None, rest, fs)
  }

  function ParseDir(h: Hasher, dir: OutDir, ms: seq<Message>, fs: FS): (r: Parsed<OutDir>)
    ensures |r.rest| <= |ms|
    decreases |ms|
  {
    if ms == [] then Parsed(None, [], fs)
    else
      var m, rest := ms[0], ms[1..];
      match m.code
      case SendingFileInfo =>
        if OpensFile(m.body) then
          var f := ParseFile(h, m.body.file, dir.path, [], 0, rest, fs);
          if f.out.Some?
          then ParseDir(h, OutDir(dir.fileCnt + 1, dir.path, dir.files + [f.out.value]), f.rest, f.fs)
          else Parsed(None, f.rest, f.fs)
        else Parsed(None, rest, fs)
      case EndOfSendingDir => Parsed(Some(dir), rest, fs)
      case _ => Parsed(None, rest, fs)
  }

  /** The record `downloadDir` starts from. */
  function NewOutDir(info: DirInfo, out: AbsPath): OutDir {
    OutDir(0, Join(Join(out, info.relParentPath), info.dirName), [])
  }

  /** The top-level loop succeeds with the list an EOS writes into the kanban, or without one. */
  datatype Finished = WithList(list: seq<PathText>) | WithoutList

  function ParseItems(h: Hasher, want: nat, out: AbsPath, got: Items, ms: seq<Message>, fs: FS): (r: Parsed<Finished>)
    ensures |r.rest| <= |ms|
    decreases |ms|
  {
    if ms == [] then Parsed(None, [], fs)
    else
      var m, rest := ms[0], ms[1..];
      match m.code
      case SendingFileInfo =>
        if OpensFile(m.body) then
          var f := ParseFile(h, m.body.file, out, [], 0, rest, fs);
          if f.out.Some?
          then ParseItems(h, want, out, Items(got.files + [f.out.value], got.dirs), f.rest, f.fs)
          else Parsed(None, f.rest, f.fs)
        else Parsed(None, rest, fs)
      case SendingDirInfo =>
        if OpensDir(m.body) then
          var d := ParseDir(h, NewOutDir(m.body.dir, out), rest, fs);
          if d.out.Some?
          then ParseItems(h, want, out, Items(got.files, got.dirs + [d.out.value]), d.rest, d.fs)
          else Parsed(None, d.rest, d.fs)
        else Parsed(None, rest, fs)
      case Eos =>
        if m.body.StreamBody? && m.body.fileCount == Int32(ReceivedFileCnt(got))
        then Parsed(Some(WithList(List(got))), rest, fs)
        else Parsed(None, rest, fs)
      case _ =>
        Parsed(if |List(got)| == want then Some(WithoutList) else None, rest, fs)
  }

  /** `common.GetMsDataPath`: the directory of the service the kanban is for. */
  function ServiceDir(dataDir: AbsPath, k: SendKanban): AbsPath {
    var s := if k.nextService == [] then [""] else k.nextService;
    Join(dataDir, s[..|s| - 1] + [s[|s| - 1] + "_" + Itoa(k.nextNumber)])
  }

  /** The acknowledgement, the kanban handed to the service broker (even on failure), what is left. */
  datatype Session = Session(ok: bool, forwarded: Option<SendKanban>, rest: seq<Message>, fs: FS)

  function WithFileList(k: SendKanban, list: seq<PathText>): SendKanban {
    k.(afterKanban := k.afterKanban.(fileList := list))
  }

  function ParseSession(h: Hasher, dataDir: AbsPath, ms: seq<Message>, fs: FS): Session {
    if ms == [] then Session(false, None, [], fs)
    else if ms[0].code != SendingKanban || !ms[0].body.KanbanBody? then Session(false, None, ms[1..], fs)
    else
      var k := ms[0].body.kanban;
      var out := ServiceDir(dataDir, k);
      var p := ParseItems(h, |k.afterKanban.fileList|, out, Items([], []), ms[1..], MakeDir(fs, out));
      Session(p.out.Some?,
              Some(if p.out.Some? && p.out.value.WithList? then WithFileList(k, p.out.value.list) else k),
              p.rest, p.fs)
  }

  /** The kanbans differ in the file list at most. */
  predicate SameButList(a: SendKanban, b: SendKanban) {
    b.(afterKanban := b.afterKanban.(fileList := a.afterKanban.fileList)) == a
  }

  /**
   The broker gets the kanban exactly when the stream opens with one, whatever becomes of the files: changed in nothing but
   its list, and unchanged if the session fails.
   */
  lemma ForwardedAnyway(h: Hasher, dataDir: AbsPath, ms: seq<Message>, fs: FS)
    ensures var s := ParseSession(h, dataDir, ms, fs);
            && (s.forwarded.Some? <==> ms != [] && ms[0].code == SendingKanban && ms[0].body.KanbanBody?)
            && (s.ok ==> s.forwarded.Some?)
            && (s.forwarded.Some? ==>
                  SameButList(ms[0].body.kanban, s.forwarded.value) && (!s.ok ==> s.forwarded.value == ms[0].body.kanban))
  {
  }

  // ---- The loops of cmd/send-anything/app/server.go on a mutable stream and file system

  /** The server's end of the stream: messages arrive in order, and the stream may end at any point. */
  class Inbox {
    var pending: seq<Message>

    constructor (ms: seq<Message>)
      ensures pending == ms
    {
      pending := ms;
    }

    method Recv() returns (m: Option<Message>)
      modifies this
      ensures old(pending) == [] ==> m == None && pending == []
      ensures old(pending) != [] ==> m == Some(old(pending)[0]) && pending == old(pending)[1..]
    {
      if pending == [] {
        return None;
      }
      m := Some(pending[0]);
      pending := pending[1..];
    }
  }

  class Disk {
    var fs: FS

    constructor (fs: FS)
      ensures this.fs == fs
    {
      this.fs := fs;
    }
  }

  class ReceivingFileBuilder {
    const relPath: CleanPath
    var fileStack: Bytes
    var expectRefNum: int

    constructor (info: FileInfo)
      ensures relPath == RelPath(info) && fileStack == [] && expectRefNum == 0
    {
      relPath := RelPath(info);
      fileStack := [];
      expectRefNum := 0;
    }

    method Enqueue(content: Bytes)
      modifies this
      ensures fileStack == old(fileStack) + content
      ensures expectRefNum == Int32(old(expectRefNum) + 1)
    {
      fileStack := fileStack + content;
      expectRefNum := Int32(expectRefNum + 1);
    }

    method Dequeue(disk: Disk, root: AbsPath) returns (ok: bool)
      modifies this, disk
      ensures var made := Create(old(disk.fs), Join(root, relPath.parts), fileStack);
              ok == made.Some? && disk.fs == if ok then made.value else old(disk.fs)
      ensures fileStack == old(fileStack)
      ensures expectRefNum == if ok then 0 else old(expectRefNum)
    {
      match Create(disk.fs, Join(root, relPath.parts), fileStack) {
        case None => ok := false;
        case Some(fs) =>
          disk.fs := fs;
          expectRefNum := 0;
          ok := true;
      }
    }
  }

  method ReceiveEof(h: Hasher, disk: Disk, info: FileInfo, body: Body, fb: ReceivingFileBuilder, out: AbsPath)
    returns (ok: bool)
    requires fb.relPath == RelPath(info)
    modifies disk, fb
    ensures if body.FileBody?
            then Applied(ok, disk.fs) == Finish(h, info, body.file, out, old(fb.fileStack), old(disk.fs))
            else !ok && disk.fs == old(disk.fs)
  {
    if !body.FileBody? {
      return false;
    }
    var outputDir := Join(out, body.file.relDir);
    var filePath := Join(outputDir, body.file.name);
    disk.fs := MakeAllDirs(disk.fs, outputDir);
    ok := fb.Dequeue(disk, outputDir);
    if !ok {
      return;
    }
    var digest := Digest(h, disk.fs, filePath);
    if digest.None? {
      return false;
    }
    if digest.value != info.hash {
      disk.fs := Remove(disk.fs, filePath);
      return false;
    }
  }

  method DownloadFile(h: Hasher, inbox: Inbox, disk: Disk, info: FileInfo, out: AbsPath) returns (r: Option<OutFile>)
    modifies inbox, disk
    ensures ParseFile(h, info, out, [], 0, old(inbox.pending), old(disk.fs)) == Parsed(r, inbox.pending, disk.fs)
  {
    var fb := new ReceivingFileBuilder(info);
    ghost var goal := ParseFile(h, info, out, [], 0, inbox.pending, disk.fs);
    while true
      invariant fresh(fb) && fb.relPath == RelPath(info)
      invariant ParseFile(h, info, out, fb.fileStack, fb.expectRefNum, inbox.pending, disk.fs) == goal
      decreases |inbox.pending|
    {
      var m := inbox.Recv();
      if m.None? {
        return None;
      }
      match m.value.code {
        case SendingFileCont =>
          if !ChunkFits(info, fb.expectRefNum, m.value.body) {
            return None;
          }
          fb.Enqueue(m.value.body.chunk.context);
        case SendingFileEof =>
          var ok := ReceiveEof(h, disk, info, m.value.body, fb, out);
          return if ok then Some(OutFile(ReportedPath(info, out))) else None;
        case _ => return None;
      }
    }
  }

  method DownloadDir(h: Hasher, inbox: Inbox, disk: Disk, info: DirInfo, out: AbsPath) returns (r: Option<OutDir>)
    modifies inbox, disk
    ensures ParseDir(h, NewOutDir(info, out), old(inbox.pending), old(disk.fs)) == Parsed(r, inbox.pending, disk.fs)
  {
    var dir := NewOutDir(info, out);
    ghost var goal := ParseDir(h, dir, inbox.pending, disk.fs);
    while true
      invariant ParseDir(h, dir, inbox.pending, disk.fs) == goal
      decreases |inbox.pending|
    {
      var m := inbox.Recv();
      if m.None? {
        return None;
      }
      match m.value.code {
        case SendingFileInfo =>
          if !OpensFile(m.value.body) {
            return None;
          }
          var f := DownloadFile(h, inbox, disk, m.value.body.file, dir.path);
          if f.None? {
            return None;
          }
          dir := OutDir(dir.fileCnt + 1, dir.path, dir.files + [f.value]);
        case EndOfSendingDir => return Some(dir);
        case _ => return None;
      }
    }
  }

  method DownloadAnything(h: Hasher, inbox: Inbox, disk: Disk, want: nat, out: AbsPath) returns (r: Option<Finished>)
    modifies inbox, disk
    ensures ParseItems(h, want, out, Items([], []), old(inbox.pending), old(disk.fs))
         == Parsed(r, inbox.pending, disk.fs)
  {
    var got := Items([], []);
    ghost var goal := ParseItems(h, want, out, got, inbox.pending, disk.fs);
    while true
      invariant ParseItems(h, want, out, got, inbox.pending, disk.fs) == goal
      decreases |inbox.pending|
    {
      var m := inbox.Recv();
      if m.None? {
        return None;
      }
      match m.value.code {
        case SendingFileInfo =>
          if !OpensFile(m.value.body) {
            return None;
          }
          var f := DownloadFile(h, inbox, disk, m.value.body.file, out);
          if f.None? {
            return None;
          }
          got := Items(got.files + [f.value], got.dirs);
        case SendingDirInfo =>
          if !OpensDir(m.value.body) {
            return None;
          }
          var d := DownloadDir(h, inbox, disk, m.value.body.dir, out);
          if d.None? {
            return None;
          }
          got := Items(got.files, got.dirs + [d.value]);
        case Eos =>
          if !m.value.body.StreamBody? || m.value.body.fileCount != Int32(ReceivedFileCnt(got)) {
            return None;
          }
          return Some(WithList(List(got)));
        case _ =>
          return if |List(got)| == want then Some(WithoutList) else None;
      }
    }
  }

  method ParseMessages(h: Hasher, inbox: Inbox, disk: Disk, dataDir: AbsPath)
    returns (ok: bool, forwarded: Option<SendKanban>)
    modifies inbox, disk
    ensures ParseSession(h, dataDir, old(inbox.pending), old(disk.fs))
         == Session(ok, forwarded, inbox.pending, disk.fs)
  {
    var m := inbox.Recv();
    if m.None? || m.value.code != SendingKanban || !m.value.body.KanbanBody? {
      return false, None;
    }
    var k := m.value.body.kanban;
    var out := ServiceDir(dataDir, k);
    disk.fs := MakeDir(disk.fs, out);
    var r := DownloadAnything(h, inbox, disk, |k.afterKanban.fileList|, out);
    ok := r.Some?;
    forwarded := Some(if ok && r.value.WithList? then WithFileList(k, r.value.list) else k);
  }
}
