/**
 The language the receiver accepts, defined by a printer of frames and independent of its loops:

   session ::= Kanban item* end
   item    ::= file | DirInfo file* EndOfDir
   file    ::= FileInfo Cont* Eof
   end     ::= EOS with the right count | any other top-level code, when the item count is the list's length

 together with what the frames do to the file system.
 */
module Language {
  import opened Basics
  import opened Paths
  import opened FileStore
  import opened Kanbans
  import opened Messages
  import opened Receiver

  datatype FileFrame = FileFrame(info: FileInfo, chunks: seq<Chunk>, eof: FileInfo)

  datatype ItemFrame =
    | FileItem(file: FileFrame)
    | DirItem(dir: DirInfo, files: seq<FileFrame>, closing: Body)

  // ---- Printing: the frame's messages, followed by `rest`

  function ChunkMsgs(cs: seq<Chunk>, rest: seq<Message>): seq<Message> {
    if cs == [] then rest else [Message(SendingFileCont, ChunkBody(cs[0]))] + ChunkMsgs(cs[1..], rest)
  }

  function FileMsgs(f: FileFrame, rest: seq<Message>): seq<Message> {
    [Message(SendingFileInfo, FileBody(f.info))] +
    ChunkMsgs(f.chunks, [Message(SendingFileEof, FileBody(f.eof))] + rest)
  }

  function FilesMsgs(files: seq<FileFrame>, rest: seq<Message>): seq<Message> {
    if files == [] then rest else FileMsgs(files[0], FilesMsgs(files[1..], rest))
  }

  function ItemMsgs(item: ItemFrame, rest: seq<Message>): seq<Message> {
    match item
    case FileItem(f) => FileMsgs(f, rest)
    case DirItem(dir, files, closing) =>
      [Message(SendingDirInfo, DirBody(dir))] + FilesMsgs(files, [Message(EndOfSendingDir, closing)] + rest)
  }

  function ItemsMsgs(items: seq<ItemFrame>, rest: seq<Message>): seq<Message> {
    if items == [] then rest else ItemMsgs(items[0], ItemsMsgs(items[1..], rest))
  }

  function SessionMsgs(k: SendKanban, items: seq<ItemFrame>, rest: seq<Message>): seq<Message> {
    [Message(SendingKanban, KanbanBody(k))] + ItemsMsgs(items, rest)
  }

  // ---- Well-formedness

  predicate ChunksFrom(info: FileInfo, next: int, cs: seq<Chunk>)
    decreases |cs|
  {
    cs == [] || (ChunkFits(info, next, ChunkBody(cs[0])) && ChunksFrom(info, Int32(next + 1), cs[1..]))
  }

  /**
   Chunks are numbered from 0, as int32, without gap, repetition or reordering, and named after the file; the announced
   size is not negative.
   */
  predicate WellFormedFile(f: FileFrame) {
    f.info.size >= 0 && ChunksFrom(f.info, 0, f.chunks)
  }

  predicate WellFormedItem(item: ItemFrame) {
    match item
    case FileItem(f) => WellFormedFile(f)
    case DirItem(dir, files, _) => dir.fileCnt >= 0 && forall i | 0 <= i < |files| :: WellFormedFile(files[i])
  }

  predicate WellFormed(items: seq<ItemFrame>) {
    forall i | 0 <= i < |items| :: WellFormedItem(items[i])
  }

  lemma Int32Succ(n: nat)
    ensures Int32(Int32(n) + 1) == Int32(n + 1)
  {
    var q := (n - Int32(n)) / 0x1_0000_0000;
    assert n + 1 == Int32(n) + 1 + q * 0x1_0000_0000;
  }

  /** Well-formed chunks, read off their indices. */
  lemma {:induction false} ChunkNumbers(info: FileInfo, n: nat, cs: seq<Chunk>)
    ensures ChunksFrom(info, Int32(n), cs)
       <==> forall i | 0 <= i < |cs| :: cs[i].refNum == Int32(n + i) && cs[i].name == Base(RelPath(info))
    decreases |cs|
  {
    if cs != [] {
      Int32Succ(n);
      ChunkNumbers(info, n + 1, cs[1..]);
      assert forall i | 0 < i < |cs| :: cs[i] == cs[1..][i - 1];
      assert forall i | 0 <= i < |cs| - 1 :: cs[1..][i] == cs[i + 1] && n + 1 + i == n + (i + 1);
    }
  }

  // ---- Meaning: the file writes, in order, and the record of what was received

  function Payload(cs: seq<Chunk>): Bytes {
    if cs == [] then [] else cs[0].context + Payload(cs[1..])
  }

  datatype Write = Write(dir: AbsPath, file: FileFrame)

  function ApplyWrite(h: Hasher, w: Write, fs: FS): Applied {
    Finish(h, w.file.info, w.file.eof, w.dir, Payload(w.file.chunks), fs)
  }

  /** The writes in order, up to and including the first that fails. */
  function ApplyWrites(h: Hasher, ws: seq<Write>, fs: FS): Applied {
    if ws == [] then Applied(true, fs)
    else
      var a := ApplyWrite(h, ws[0], fs);
      if a.ok then ApplyWrites(h, ws[1..], a.fs) else a
  }

  function FilesWrites(dir: AbsPath, files: seq<FileFrame>): seq<Write> {
    if files == [] then [] else [Write(dir, files[0])] + FilesWrites(dir, files[1..])
  }

  function ItemWrites(out: AbsPath, item: ItemFrame): seq<Write> {
    match item
    case FileItem(f) => [Write(out, f)]
    case DirItem(dir, files, _) => FilesWrites(NewOutDir(dir, out).path, files)
  }

  function ItemsWrites(out: AbsPath, items: seq<ItemFrame>): seq<Write> {
    if items == [] then [] else ItemWrites(out, items[0]) + ItemsWrites(out, items[1..])
  }

  /** The directory record after one more file, and after several. */
  function AddFile(dir: OutDir, f: FileFrame): OutDir {
    OutDir(dir.fileCnt + 1, dir.path, dir.files + [OutFile(ReportedPath(f.info, dir.path))])
  }

  function AddFiles(dir: OutDir, files: seq<FileFrame>): OutDir
    decreases |files|
  {
    if files == [] then dir else AddFiles(AddFile(dir, files[0]), files[1..])
  }

  function Add(got: Items, out: AbsPath, item: ItemFrame): Items {
    match item
    case FileItem(f) => Items(got.files + [OutFile(ReportedPath(f.info, out))], got.dirs)
    case DirItem(dir, files, _) => Items(got.files, got.dirs + [AddFiles(NewOutDir(dir, out), files)])
  }

  function AddAll(got: Items, out: AbsPath, items: seq<ItemFrame>): Items
    decreases |items|
  {
    if items == [] then got else AddAll(Add(got, out, items[0]), out, items[1..])
  }

  // ---- Sessions

  /** What may close the top-level loop successfully. */
  predicate Closes(end: Message, got: Items, want: nat) {
    match end.code
    case SendingFileInfo => false
    case SendingDirInfo => false
    case Eos => end.body.StreamBody? && end.body.fileCount == Int32(ReceivedFileCnt(got))
    case _ => |List(got)| == want
  }

  function Received(dataDir: AbsPath, k: SendKanban, items: seq<ItemFrame>): Items {
    AddAll(Items([], []), ServiceDir(dataDir, k), items)
  }

  function Effect(h: Hasher, dataDir: AbsPath, k: SendKanban, items: seq<ItemFrame>, fs: FS): Applied {
    var out := ServiceDir(dataDir, k);
    ApplyWrites(h, ItemsWrites(out, items), MakeDir(fs, out))
  }

  /** `ms` is a session of the language, closed by `end` and followed by `rest`. */
  predicate IsSession(h: Hasher, dataDir: AbsPath, k: SendKanban, items: seq<ItemFrame>, end: Message,
                      rest: seq<Message>, ms: seq<Message>, fs: FS)
  {
    && ms == SessionMsgs(k, items, [end] + rest)
    && WellFormed(items)
    && Effect(h, dataDir, k, items, fs).ok
    && Closes(end, Received(dataDir, k, items), |k.afterKanban.fileList|)
  }

  // ---- From frames to the loops

  /** In-order chunks are absorbed one by one. */
  lemma {:induction false} ParseChunks(h: Hasher, info: FileInfo, out: AbsPath, stack: Bytes, next: int,
                                       cs: seq<Chunk>, rest: seq<Message>, fs: FS)
    returns (next': int)
    requires ChunksFrom(info, next, cs)
    ensures ParseFile(h, info, out, stack, next, ChunkMsgs(cs, rest), fs)
         == ParseFile(h, info, out, stack + Payload(cs), next', rest, fs)
    decreases |cs|
  {
    if cs == [] {
      assert stack + Payload(cs) == stack;
      next' := next;
    } else {
      next' := ParseChunks(h, info, out, stack + cs[0].context, Int32(next + 1), cs[1..], rest, fs);
      assert stack + cs[0].context + Payload(cs[1..]) == stack + Payload(cs);
    }
  }

  lemma ParseFrame(h: Hasher, f: FileFrame, out: AbsPath, rest: seq<Message>, fs: FS)
    requires WellFormedFile(f)
    ensures var a := ApplyWrite(h, Write(out, f), fs);
            var p := ParseFile(h, f.info, out, [], 0, FileMsgs(f, rest)[1..], fs);
            p == Parsed(if a.ok then Some(OutFile(ReportedPath(f.info, out))) else None, rest, a.fs)
  {
    var tail := [Message(SendingFileEof, FileBody(f.eof))] + rest;
    var _ := ParseChunks(h, f.info, out, [], 0, f.chunks, tail, fs);
    assert [] + Payload(f.chunks) == Payload(f.chunks);
  }

  lemma ParseDirStep(h: Hasher, dir: OutDir, f: FileFrame, rest: seq<Message>, fs: FS)
    requires WellFormedFile(f)
    ensures var a := ApplyWrite(h, Write(dir.path, f), fs);
            var p := ParseDir(h, dir, FileMsgs(f, rest), fs);
            if a.ok then p == ParseDir(h, AddFile(dir, f), rest, a.fs) else p.out.None? && p.fs == a.fs
  {
    ParseFrame(h, f, dir.path, rest, fs);
  }

  lemma {:induction false} ParseFrames(h: Hasher, dir: OutDir, files: seq<FileFrame>, rest: seq<Message>, fs: FS)
    requires forall i | 0 <= i < |files| :: WellFormedFile(files[i])
    ensures var a := ApplyWrites(h, FilesWrites(dir.path, files), fs);
            var p := ParseDir(h, dir, FilesMsgs(files, rest), fs);
            if a.ok then p == ParseDir(h, AddFiles(dir, files), rest, a.fs) else p.out.None? && p.fs == a.fs
    decreases |files|
  {
    if files != [] {
      ParseDirStep(h, dir, files[0], FilesMsgs(files[1..], rest), fs);
      var a := ApplyWrite(h, Write(dir.path, files[0]), fs);
      if a.ok {
        ParseFrames(h, AddFile(dir, files[0]), files[1..], rest, a.fs);
      }
    }
  }

  lemma {:induction false} ApplyWritesAppend(h: Hasher, a: seq<Write>, b: seq<Write>, fs: FS)
    ensures var x := ApplyWrites(h, a, fs);
            ApplyWrites(h, a + b, fs) == if x.ok then ApplyWrites(h, b, x.fs) else x
    decreases |a|
  {
    if a == [] {
      assert a + b == b;
    } else {
      assert (a + b)[1..] == a[1..] + b;
      var x := ApplyWrite(h, a[0], fs);
      if x.ok {
        ApplyWritesAppend(h, a[1..], b, x.fs);
      }
    }
  }

  lemma ParseFileItem(h: Hasher, want: nat, out: AbsPath, got: Items, f: FileFrame, rest: seq<Message>, fs: FS)
    requires WellFormedFile(f)
    ensures var a := ApplyWrite(h, Write(out, f), fs);
            var p := ParseItems(h, want, out, got, FileMsgs(f, rest), fs);
            if a.ok then p == ParseItems(h, want, out, Add(got, out, FileItem(f)), rest, a.fs) else p.out.None? && p.fs == a.fs
  {
    ParseFrame(h, f, out, rest, fs);
  }

  lemma ParseDirItem(h: Hasher, want: nat, out: AbsPath, got: Items, item: ItemFrame, rest: seq<Message>, fs: FS)
    requires item.DirItem? && WellFormedItem(item)
    ensures var a := ApplyWrites(h, ItemWrites(out, item), fs);
            var p := ParseItems(h, want, out, got, ItemMsgs(item, rest), fs);
            if a.ok then p == ParseItems(h, want, out, Add(got, out, item), rest, a.fs) else p.out.None? && p.fs == a.fs
  {
    var dir, tail := NewOutDir(item.dir, out), [Message(EndOfSendingDir, item.closing)] + rest;
    var a := ApplyWrites(h, ItemWrites(out, item), fs);
    var d := ParseDir(h, dir, FilesMsgs(item.files, tail), fs);
    assert if a.ok then d == Parsed(Some(AddFiles(dir, item.files)), rest, a.fs) else d.out.None? && d.fs == a.fs by {
      ParseFrames(h, dir, item.files, tail, fs);
    }
    assert ItemMsgs(item, rest)[1..] == FilesMsgs(item.files, tail);
  }

  /** The top-level loop on the messages of one item. */
  lemma ParseItem(h: Hasher, want: nat, out: AbsPath, got: Items, item: ItemFrame, rest: seq<Message>, fs: FS)
    requires WellFormedItem(item)
    ensures var a := ApplyWrites(h, ItemWrites(out, item), fs);
            var p := ParseItems(h, want, out, got, ItemMsgs(item, rest), fs);
            if a.ok then p == ParseItems(h, want, out, Add(got, out, item), rest, a.fs) else p.out.None? && p.fs == a.fs
  {
    match item {
      case FileItem(f) =>
        ParseFileItem(h, want, out, got, f, rest, fs);
        assert ItemWrites(out, item)[1..] == [];
      case DirItem(_, _, _) => ParseDirItem(h, want, out, got, item, rest, fs);
    }
  }

  lemma {:induction false} ParseAllItems(h: Hasher, want: nat, out: AbsPath, got: Items, items: seq<ItemFrame>,
                                         rest: seq<Message>, fs: FS)
    requires WellFormed(items)
    ensures var a := ApplyWrites(h, ItemsWrites(out, items), fs);
            var p := ParseItems(h, want, out, got, ItemsMsgs(items, rest), fs);
            if a.ok then p == ParseItems(h, want, out, AddAll(got, out, items), rest, a.fs) else p.out.None? && p.fs == a.fs
    decreases |items|
  {
    if items != [] {
      ParseItem(h, want, out, got, items[0], ItemsMsgs(items[1..], rest), fs);
      ApplyWritesAppend(h, ItemWrites(out, items[0]), ItemsWrites(out, items[1..]), fs);
      var a := ApplyWrites(h, ItemWrites(out, items[0]), fs);
      if a.ok {
        ParseAllItems(h, want, out, Add(got, out, items[0]), items[1..], rest, a.fs);
      }
    }
  }

  /** The receiver on any kanban and well-formed items followed by anything. */
  lemma ParseHead(h: Hasher, dataDir: AbsPath, k: SendKanban, items: seq<ItemFrame>, rest: seq<Message>, fs: FS)
    requires WellFormed(items)
    ensures var a := Effect(h, dataDir, k, items, fs);
            var s := ParseSession(h, dataDir, SessionMsgs(k, items, rest), fs);
            var p := ParseItems(h, |k.afterKanban.fileList|, ServiceDir(dataDir, k), Received(dataDir, k, items), rest, a.fs);
            if a.ok then
              && s.ok == p.out.Some? && s.rest == p.rest && s.fs == p.fs
              && s.forwarded == Some(if s.ok && p.out.value.WithList? then WithFileList(k, p.out.value.list) else k)
            else !s.ok && s.fs == a.fs
  {
    var out := ServiceDir(dataDir, k);
    ParseAllItems(h, |k.afterKanban.fileList|, out, Items([], []), items, rest, MakeDir(fs, out));
  }

  /** Every session of the language is accepted, and this is all the receiver does with it. */
  lemma SessionsAccepted(h: Hasher, dataDir: AbsPath, k: SendKanban, items: seq<ItemFrame>, end: Message,
                         rest: seq<Message>, ms: seq<Message>, fs: FS)
    requires IsSession(h, dataDir, k, items, end, rest, ms, fs)
    ensures var list := List(Received(dataDir, k, items));
            var forwarded := Some(if end.code.Eos? then WithFileList(k, list) else k);
            ParseSession(h, dataDir, ms, fs) == Session(true, forwarded, rest, Effect(h, dataDir, k, items, fs).fs)
  {
    ParseHead(h, dataDir, k, items, [end] + rest, fs);
  }

  // ---- From the loops to frames

  lemma {:induction false} FileSound(h: Hasher, info: FileInfo, out: AbsPath, stack: Bytes, next: int,
                                     ms: seq<Message>, fs: FS)
    returns (cs: seq<Chunk>, eof: FileInfo)
    requires ParseFile(h, info, out, stack, next, ms, fs).out.Some?
    ensures var p := ParseFile(h, info, out, stack, next, ms, fs);
            && ms == ChunkMsgs(cs, [Message(SendingFileEof, FileBody(eof))] + p.rest)
            && ChunksFrom(info, next, cs)
            && Finish(h, info, eof, out, stack + Payload(cs), fs) == Applied(true, p.fs)
            && p.out == Some(OutFile(ReportedPath(info, out)))
    decreases |ms|
  {
    var m := ms[0];
    HeadAndTail(ms);
    if m.code == SendingFileCont {
      var c := m.body.chunk;
      var cs', eof' := FileSound(h, info, out, stack + c.context, Int32(next + 1), ms[1..], fs);
      cs, eof := [c] + cs', eof';
      assert cs[1..] == cs';
      assert stack + c.context + Payload(cs') == stack + Payload(cs);
    } else {
      cs, eof := [], m.body.file;
      assert stack + Payload(cs) == stack;
    }
  }

  lemma FrameSound(h: Hasher, info: FileInfo, out: AbsPath, ms: seq<Message>, fs: FS) returns (f: FileFrame)
    requires info.size >= 0
    requires ms != [] && ms[0] == Message(SendingFileInfo, FileBody(info))
    requires ParseFile(h, info, out, [], 0, ms[1..], fs).out.Some?
    ensures var p := ParseFile(h, info, out, [], 0, ms[1..], fs);
            && ms == FileMsgs(f, p.rest)
            && WellFormedFile(f) && f.info == info
            && ApplyWrite(h, Write(out, f), fs) == Applied(true, p.fs)
            && p.out == Some(OutFile(ReportedPath(info, out)))
  {
    var cs, eof := FileSound(h, info, out, [], 0, ms[1..], fs);
    f := FileFrame(info, cs, eof);
    assert [] + Payload(cs) == Payload(cs);
    HeadAndTail(ms);
  }

  lemma HeadAndTail(ms: seq<Message>)
    requires ms != []
    ensures ms == [ms[0]] + ms[1..]
  {
  }

  lemma {:induction false} DirSound(h: Hasher, dir: OutDir, ms: seq<Message>, fs: FS)
    returns (files: seq<FileFrame>, closing: Body)
    requires ParseDir(h, dir, ms, fs).out.Some?
    ensures var p := ParseDir(h, dir, ms, fs);
            && ms == FilesMsgs(files, [Message(EndOfSendingDir, closing)] + p.rest)
            && (forall i | 0 <= i < |files| :: WellFormedFile(files[i]))
            && ApplyWrites(h, FilesWrites(dir.path, files), fs) == Applied(true, p.fs)
            && p.out == Some(AddFiles(dir, files))
    decreases |ms|
  {
    var m := ms[0];
    if m.code == SendingFileInfo {
      var q := ParseFile(h, m.body.file, dir.path, [], 0, ms[1..], fs);
      var f := FrameSound(h, m.body.file, dir.path, ms, fs);
      var files', closing' := DirSound(h, AddFile(dir, f), q.rest, q.fs);
      files, closing := [f] + files', closing';
      assert files[1..] == files';
    } else {
      files, closing := [], m.body;
      HeadAndTail(ms);
    }
  }

  lemma {:induction false} ItemsSound(h: Hasher, want: nat, out: AbsPath, got: Items, ms: seq<Message>, fs: FS)
    returns (items: seq<ItemFrame>, end: Message)
    requires ParseItems(h, want, out, got, ms, fs).out.Some?
    ensures var p := ParseItems(h, want, out, got, ms, fs);
            && ms == ItemsMsgs(items, [end] + p.rest)
            && WellFormed(items)
            && ApplyWrites(h, ItemsWrites(out, items), fs) == Applied(true, p.fs)
            && Closes(end, AddAll(got, out, items), want)
    decreases |ms|, 1
  {
    var m := ms[0];
    if m.code == SendingFileInfo {
      var q := ParseFile(h, m.body.file, out, [], 0, ms[1..], fs);
      var f := FrameSound(h, m.body.file, out, ms, fs);
      items, end := ItemsSoundStep(h, want, out, got, FileItem(f), ms, q.rest, fs, q.fs);
    } else if m.code == SendingDirInfo {
      items, end := ItemsSoundDir(h, want, out, got, ms, fs);
    } else {
      items, end := [], m;
      HeadAndTail(ms);
    }
  }

  lemma {:induction false} ItemsSoundDir(h: Hasher, want: nat, out: AbsPath, got: Items, ms: seq<Message>, fs: FS)
    returns (items: seq<ItemFrame>, end: Message)
    requires ParseItems(h, want, out, got, ms, fs).out.Some? && ms[0].code == SendingDirInfo
    ensures var p := ParseItems(h, want, out, got, ms, fs);
            && ms == ItemsMsgs(items, [end] + p.rest)
            && WellFormed(items)
            && ApplyWrites(h, ItemsWrites(out, items), fs) == Applied(true, p.fs)
            && Closes(end, AddAll(got, out, items), want)
    decreases |ms|, 0
  {
    var dir := ms[0].body.dir;
    var q := ParseDir(h, NewOutDir(dir, out), ms[1..], fs);
    var files, closing := DirSound(h, NewOutDir(dir, out), ms[1..], fs);
    HeadAndTail(ms);
    items, end := ItemsSoundStep(h, want, out, got, DirItem(dir, files, closing), ms, q.rest, fs, q.fs);
  }

  lemma {:induction false} ItemsSoundStep(h: Hasher, want: nat, out: AbsPath, got: Items, item: ItemFrame,
                                          ms: seq<Message>, tail: seq<Message>, fs: FS, fs': FS)
    returns (items: seq<ItemFrame>, end: Message)
    requires ParseItems(h, want, out, got, ms, fs) == ParseItems(h, want, out, Add(got, out, item), tail, fs')
    requires ParseItems(h, want, out, got, ms, fs).out.Some?
    requires ms == ItemMsgs(item, tail) && WellFormedItem(item)
    requires ApplyWrites(h, ItemWrites(out, item), fs) == Applied(true, fs')
    requires |tail| < |ms|
    ensures var p := ParseItems(h, want, out, got, ms, fs);
            && ms == ItemsMsgs(items, [end] + p.rest)
            && WellFormed(items)
            && ApplyWrites(h, ItemsWrites(out, items), fs) == Applied(true, p.fs)
            && Closes(end, AddAll(got, out, items), want)
    decreases |tail|, 2
  {
    var items', end' := ItemsSound(h, want, out, Add(got, out, item), tail, fs');
    items, end := [item] + items', end';
    assert items[1..] == items';
    ApplyWritesAppend(h, ItemWrites(out, item), ItemsWrites(out, items'), fs);
  }

  lemma SessionSound(h: Hasher, dataDir: AbsPath, ms: seq<Message>, fs: FS)
    returns (k: SendKanban, items: seq<ItemFrame>, end: Message)
    requires ParseSession(h, dataDir, ms, fs).ok
    ensures IsSession(h, dataDir, k, items, end, ParseSession(h, dataDir, ms, fs).rest, ms, fs)
  {
    k := ms[0].body.kanban;
    var out := ServiceDir(dataDir, k);
    items, end := ItemsSound(h, |k.afterKanban.fileList|, out, Items([], []), ms[1..], MakeDir(fs, out));
    HeadAndTail(ms);
  }

  /** The receiver answers OK on exactly the streams that start with a session of the language. */
  lemma AcceptedExactly(h: Hasher, dataDir: AbsPath, ms: seq<Message>, fs: FS)
    ensures ParseSession(h, dataDir, ms, fs).ok
       <==> exists k, items, end, rest :: IsSession(h, dataDir, k, items, end, rest, ms, fs)
  {
    if ParseSession(h, dataDir, ms, fs).ok {
      var k, items, end := SessionSound(h, dataDir, ms, fs);
    } else if k, items, end, rest :| IsSession(h, dataDir, k, items, end, rest, ms, fs) {
      SessionsAccepted(h, dataDir, k, items, end, rest, ms, fs);
    }
  }
}
