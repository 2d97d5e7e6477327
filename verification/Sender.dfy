/**
 The send-anything client: it walks the paths of the kanban's file list and sends each regular file and each
 directory as frames. Every read may be short and every send may fail; the methods say exactly which messages
 are on the stream in either case.
 */
module Sender {
  import opened Basics
  import opened Paths
  import opened FileStore
  import opened Kanbans
  import opened Messages
  import opened Receiver
  import opened Language

  // ---- The sending device's file system

  datatype Entry = Entry(name: string, node: Node)

  /** `SpecialNode` is anything that is neither a regular file nor a directory. */
  datatype Node = FileNode(content: Bytes) | DirNode(entries: seq<Entry>) | SpecialNode

  datatype Device = Device(root: Node, home: AbsPath)

  /** A regular file found below a directory, `relDir` pieces down. */
  datatype Found = Found(relDir: seq<string>, name: string, content: Bytes)

  /** `getFilePathAllInTree`: the regular files in walking order; a special file is an error. */
  function Walk(relDir: seq<string>, entries: seq<Entry>): Option<seq<Found>>
    decreases entries
  {
    if entries == [] then Some([])
    else
      var e := entries[0];
      var here := match e.node
        case FileNode(content) => Some([Found(relDir, e.name, content)])
        case DirNode(below) => Walk(relDir + [e.name], below)
        case SpecialNode => None;
      var later := Walk(relDir, entries[1..]);
      if here.Some? && later.Some? then Some(here.value + later.value) else None
  }

  function Find(entries: seq<Entry>, name: string): Option<Node> {
    if entries == [] then None
    else if entries[0].name == name then Some(entries[0].node)
    else Find(entries[1..], name)
  }

  function Lookup(node: Node, p: AbsPath): Option<Node>
    decreases |p|
  {
    if p == [] then Some(node)
    else if !node.DirNode? then None
    else
      match Find(node.entries, p[0])
      case None => None
      case Some(next) => Lookup(next, p[1..])
  }

  /** `filepath.Base` of an absolute path string. */
  function BaseText(t: PathText): PathText {
    if t == [] then ["", ""] else if Last(t) == "" then BaseText(Drop(t)) else [Last(t)]
  }

  /** `isSendable`: a comparison of strings, so "/aion2" counts as below "/aion". */
  predicate IsSendable(target: AbsPath, home: AbsPath) {
    PiecesStart(target, home)
  }

  datatype Source =
    | Absent
    | Special
    | Refused
    | BadTree
    | PlainFile(name: string, content: Bytes)
    | Folder(dirName: PathText, found: seq<Found>)

  /** `getAbsPath`: a relative path starts at the home directory. */
  function TextOf(device: Device, p: PathText): PathText {
    if IsAbs(p) then p else Text(Join(device.home, p))
  }

  /** Where the path leads, from the root. */
  function TargetOf(device: Device, p: PathText): AbsPath {
    Join([], TextOf(device, p))
  }

  /** What one path of the file list leads to. */
  function SourceOf(device: Device, p: PathText): Source {
    var text := TextOf(device, p);
    var target := TargetOf(device, p);
    match Lookup(device.root, target)
    case None => Absent
    case Some(SpecialNode) => Special
    case Some(FileNode(content)) =>
      if !IsSendable(target, device.home) then Refused
      else PlainFile(if target == [] then "" else Last(target), content)
    case Some(DirNode(entries)) =>
      if !IsSendable(target, device.home) then Refused
      else
        match Walk([], entries)
        case None => BadTree
        case Some(found) => Folder(BaseText(text), found)
  }

  // ---- What is sent

  /** A file as sent: `parts` are the blocks the reads returned. */
  datatype SentFile = SentFile(relDir: seq<string>, name: string, content: Bytes, parts: seq<Bytes>)

  datatype SentItem = TopFile(file: SentFile) | TopDir(dirName: PathText, files: seq<SentFile>)

  /** The blocks are those of reads that return at least one and at most `CHUNK_SIZE` bytes, up to the end. */
  predicate IsReading(parts: seq<Bytes>, content: Bytes) {
    && (forall i | 0 <= i < |parts| :: 0 < |parts[i]| <= CHUNK_SIZE)
    && Concat(parts) == content
  }

  /** What a reading that stopped early has returned. */
  predicate IsBeginning(parts: seq<Bytes>, content: Bytes) {
    && (forall i | 0 <= i < |parts| :: 0 < |parts[i]| <= CHUNK_SIZE)
    && Concat(parts) <= content
  }

  predicate IsSending(f: SentFile) {
    IsReading(f.parts, f.content)
  }

  function RelText(relDir: seq<string>): PathText {
    if relDir == [] then ["."] else relDir
  }

  function Numbered(name: string, parts: seq<Bytes>): seq<Chunk> {
    seq(|parts|, i requires 0 <= i < |parts| => Chunk(parts[i], [name], Int32(i)))
  }

  function InfoOf(h: Hasher, f: Found, chunkCnt: int): FileInfo {
    FileInfo(|f.content|, chunkCnt, h(f.content), [f.name], RelText(f.relDir))
  }

  /** The header announces floor(size / CHUNK_SIZE) chunks, the trailer the number sent. */
  function HeaderOf(h: Hasher, f: Found): FileInfo {
    InfoOf(h, f, Int32(|f.content| / CHUNK_SIZE))
  }

  function FoundOf(f: SentFile): Found {
    Found(f.relDir, f.name, f.content)
  }

  function FrameOf(h: Hasher, f: SentFile): FileFrame {
    FileFrame(HeaderOf(h, FoundOf(f)), Numbered(f.name, f.parts), InfoOf(h, FoundOf(f), Int32(|f.parts|)))
  }

  function FramesOf(h: Hasher, files: seq<SentFile>): seq<FileFrame> {
    seq(|files|, i requires 0 <= i < |files| => FrameOf(h, files[i]))
  }

  function DirInfoOf(dirName: PathText, fileCnt: int): DirInfo {
    DirInfo(fileCnt, dirName, ["."])
  }

  function ItemOf(h: Hasher, item: SentItem): ItemFrame {
    match item
    case TopFile(f) => FileItem(FrameOf(h, f))
    case TopDir(dirName, files) =>
      DirItem(DirInfoOf(dirName, |files|), FramesOf(h, files), DirBody(DirInfoOf(dirName, |files|)))
  }

  function ItemsOf(h: Hasher, items: seq<SentItem>): seq<ItemFrame> {
    seq(|items|, i requires 0 <= i < |items| => ItemOf(h, items[i]))
  }

  /** `sentFileCnt`. */
  function FileCount(items: seq<SentItem>): nat {
    if items == [] then 0
    else (match items[0] case TopFile(_) => 1 case TopDir(_, files) => |files|) + FileCount(items[1..])
  }

  predicate Describes(source: Source, item: SentItem) {
    match source
    case PlainFile(name, content) => item.TopFile? && FoundOf(item.file) == Found([], name, content) && IsSending(item.file)
    case Folder(dirName, found) =>
      && item.TopDir? && item.dirName == dirName && |item.files| == |found|
      && forall i | 0 <= i < |found| :: FoundOf(item.files[i]) == found[i] && IsSending(item.files[i])
    case _ => false
  }

  /** `items` sends `paths` in order, with special files silently left out. */
  predicate Sends(device: Device, paths: seq<PathText>, items: seq<SentItem>)
    decreases |paths|
  {
    if paths == [] then items == []
    else
      var source := SourceOf(device, paths[|paths| - 1]);
      var before := paths[..|paths| - 1];
      if source.Special? then Sends(device, before, items)
      else items != [] && Describes(source, items[|items| - 1]) && Sends(device, before, items[..|items| - 1])
  }

  // ---- An item cut short

  datatype TornFile = TornFile(found: Found, parts: seq<Bytes>)

  datatype Torn =
    | TornNone
    | TornTop(file: TornFile)
    | TornDir(dirName: PathText, fileCnt: nat, files: seq<SentFile>, last: Option<TornFile>)

  function TornFileMsgs(h: Hasher, t: TornFile, rest: seq<Message>): seq<Message> {
    [Message(SendingFileInfo, FileBody(HeaderOf(h, t.found)))] + ChunkMsgs(Numbered(t.found.name, t.parts), rest)
  }

  function TornLastMsgs(h: Hasher, last: Option<TornFile>, rest: seq<Message>): seq<Message> {
    if last.Some? then TornFileMsgs(h, last.value, rest) else rest
  }

  function TornMsgs(h: Hasher, t: Torn, rest: seq<Message>): seq<Message> {
    match t
    case TornNone => rest
    case TornTop(f) => TornFileMsgs(h, f, rest)
    case TornDir(dirName, fileCnt, files, last) =>
      [Message(SendingDirInfo, DirBody(DirInfoOf(dirName, fileCnt)))]
      + FilesMsgs(FramesOf(h, files), TornLastMsgs(h, last, rest))
  }

  /** The file cut short is the one after the first `n`, and what was sent of it is a beginning of its content. */
  predicate IsNext(found: seq<Found>, n: nat, last: TornFile) {
    n < |found| && last.found == found[n] && IsBeginning(last.parts, last.found.content)
  }

  /** `torn` is a beginning of what `source` would send. */
  predicate TornFrom(source: Source, torn: Torn) {
    match torn
    case TornNone => true
    case TornTop(t) =>
      && source.PlainFile? && t.found == Found([], source.name, source.content)
      && IsBeginning(t.parts, t.found.content)
    case TornDir(dirName, fileCnt, files, last) =>
      && source.Folder? && dirName == source.dirName && |files| <= |source.found|
      && (forall i | 0 <= i < |files| :: FoundOf(files[i]) == source.found[i] && IsSending(files[i]))
      && (last.Some? ==> IsNext(source.found, |files|, last.value))
  }

  // ---- Appending to what was printed

  lemma {:induction false} ChunkMsgsAppend(cs: seq<Chunk>, rest: seq<Message>, more: seq<Message>)
    ensures ChunkMsgs(cs, rest) + more == ChunkMsgs(cs, rest + more)
    decreases |cs|
  {
    if cs != [] {
      ChunkMsgsAppend(cs[1..], rest, more);
    }
  }

  lemma FileMsgsAppend(f: FileFrame, rest: seq<Message>, more: seq<Message>)
    ensures FileMsgs(f, rest) + more == FileMsgs(f, rest + more)
  {
    var eof := [Message(SendingFileEof, FileBody(f.eof))];
    ChunkMsgsAppend(f.chunks, eof + rest, more);
    assert eof + rest + more == eof + (rest + more);
  }

  lemma {:induction false} FilesMsgsAppend(files: seq<FileFrame>, rest: seq<Message>, more: seq<Message>)
    ensures FilesMsgs(files, rest) + more == FilesMsgs(files, rest + more)
    decreases |files|
  {
    if files != [] {
      FileMsgsAppend(files[0], FilesMsgs(files[1..], rest), more);
      FilesMsgsAppend(files[1..], rest, more);
    }
  }

  lemma ItemMsgsAppend(item: ItemFrame, rest: seq<Message>, more: seq<Message>)
    ensures ItemMsgs(item, rest) + more == ItemMsgs(item, rest + more)
  {
    match item {
      case FileItem(f) => FileMsgsAppend(f, rest, more);
      case DirItem(dir, files, closing) =>
        var end := [Message(EndOfSendingDir, closing)];
        FilesMsgsAppend(files, end + rest, more);
        assert end + rest + more == end + (rest + more);
    }
  }

  lemma {:induction false} ItemsMsgsAppend(items: seq<ItemFrame>, rest: seq<Message>, more: seq<Message>)
    ensures ItemsMsgs(items, rest) + more == ItemsMsgs(items, rest + more)
    decreases |items|
  {
    if items != [] {
      ItemMsgsAppend(items[0], ItemsMsgs(items[1..], rest), more);
      ItemsMsgsAppend(items[1..], rest, more);
    }
  }

  lemma SessionMsgsAppend(k: SendKanban, items: seq<ItemFrame>, rest: seq<Message>, more: seq<Message>)
    ensures SessionMsgs(k, items, rest) + more == SessionMsgs(k, items, rest + more)
  {
    ItemsMsgsAppend(items, rest, more);
  }

  lemma ChunkMsgsThen(cs: seq<Chunk>, more: seq<Message>)
    ensures ChunkMsgs(cs, []) + more == ChunkMsgs(cs, more)
  {
    ChunkMsgsAppend(cs, [], more);
    Reassociate([], [], more);
  }

  lemma FilesMsgsThen(files: seq<FileFrame>, more: seq<Message>)
    ensures FilesMsgs(files, []) + more == FilesMsgs(files, more)
  {
    FilesMsgsAppend(files, [], more);
    Reassociate([], [], more);
  }

  lemma ItemsMsgsThen(items: seq<ItemFrame>, more: seq<Message>)
    ensures ItemsMsgs(items, []) + more == ItemsMsgs(items, more)
  {
    ItemsMsgsAppend(items, [], more);
    Reassociate([], [], more);
  }

  lemma {:induction false} ChunkMsgsSnoc(cs: seq<Chunk>, c: Chunk, rest: seq<Message>)
    ensures ChunkMsgs(cs + [c], rest) == ChunkMsgs(cs, [Message(SendingFileCont, ChunkBody(c))] + rest)
    decreases |cs|
  {
    if cs == [] {
      assert cs + [c] == [c];
    } else {
      assert (cs + [c])[1..] == cs[1..] + [c];
      ChunkMsgsSnoc(cs[1..], c, rest);
    }
  }

  lemma {:induction false} FilesMsgsSnoc(files: seq<FileFrame>, f: FileFrame, rest: seq<Message>)
    ensures FilesMsgs(files + [f], rest) == FilesMsgs(files, FileMsgs(f, rest))
    decreases |files|
  {
    if files == [] {
      assert files + [f] == [f];
    } else {
      assert (files + [f])[1..] == files[1..] + [f];
      FilesMsgsSnoc(files[1..], f, rest);
    }
  }

  lemma {:induction false} ItemsMsgsSnoc(items: seq<ItemFrame>, item: ItemFrame, rest: seq<Message>)
    ensures ItemsMsgs(items + [item], rest) == ItemsMsgs(items, ItemMsgs(item, rest))
    decreases |items|
  {
    if items == [] {
      assert items + [item] == [item];
    } else {
      assert (items + [item])[1..] == items[1..] + [item];
      ItemsMsgsSnoc(items[1..], item, rest);
    }
  }

  // ---- The client's objects and loops

  datatype ReadResult = Data(bytes: Bytes) | EndOfFile | ReadError

  /** `baggage.FileInfo`: an open file with a read cursor and a cached hash ([] while not computed). No read fails if it is `readable`. */
  class OpenFile {
    const found: Found
    const readable: bool
    var cursor: nat
    var hash: Bytes

    ghost predicate Valid()
      reads this
    {
      cursor <= |found.content|
    }

    constructor (found: Found, readable: bool)
      ensures this.found == found && this.readable == readable && cursor == 0 && hash == []
    {
      this.found, this.readable := found, readable;
      cursor := 0;
      hash := [];
    }

    /** The first call reads the whole file and rewinds; later calls leave the cursor alone. */
    method Hash(h: Hasher) returns (digest: Bytes)
      requires Valid()
      modifies this
      ensures Valid()
      ensures old(hash) != [] ==> digest == hash == old(hash) && cursor == old(cursor)
      ensures old(hash) == [] ==> digest == hash == h(found.content) && cursor == 0
    {
      if hash != [] {
        return hash;
      }
      cursor := 0;
      digest := h(found.content[cursor..]);
      cursor := |found.content|;
      hash := digest;
      cursor := 0;
    }

    /** One `Read`: it may return fewer bytes than asked for, but never none before the end. */
    method GetChunk(size: nat) returns (r: ReadResult)
      requires Valid() && size > 0
      modifies this`cursor
      ensures Valid() && old(cursor) <= cursor
      ensures r.Data? ==> 0 < |r.bytes| <= size && r.bytes == found.content[old(cursor)..cursor]
      ensures !r.Data? ==> cursor == old(cursor)
      ensures r.EndOfFile? ==> cursor == |found.content|
      ensures readable ==> !r.ReadError?
    {
      var fails: bool :| readable ==> !fails;
      if fails {
        return ReadError;
      }
      if cursor == |found.content| {
        return EndOfFile;
      }
      var n: nat :| 0 < n <= size && cursor + n <= |found.content|;
      r := Data(found.content[cursor..cursor + n]);
      cursor := cursor + n;
    }
  }

  /** The sends that fail, counted from the first one tried. */
  type Lost = set<nat>

  predicate AllSent(lost: Lost, from: nat, to: nat) {
    forall t | from <= t < to :: t !in lost
  }

  /** Of the sends tried from `from` up to `to` all succeeded, or all but the last one did. */
  predicate Tried(lost: Lost, from: nat, to: nat, ok: bool) {
    from <= to && if ok then AllSent(lost, from, to) else from < to && AllSent(lost, from, to - 1) && to - 1 in lost
  }

  lemma TriedThen(lost: Lost, a: nat, b: nat, c: nat, ok: bool)
    requires Tried(lost, a, b, true) && Tried(lost, b, c, ok)
    ensures Tried(lost, a, c, ok)
  {
  }

  /** The client's end of the stream; a send that fails for good delivers nothing. */
  class Outbox {
    const lost: Lost
    var sent: seq<Message>
    var tries: nat

    constructor (lost: Lost)
      ensures this.lost == lost && sent == [] && tries == 0
    {
      this.lost := lost;
      sent, tries := [], 0;
    }

    method Send(m: Message) returns (ok: bool)
      modifies this
      ensures sent == if ok then old(sent) + [m] else old(sent)
      ensures tries == old(tries) + 1 && ok == (old(tries) !in lost) && Tried(lost, old(tries), tries, ok)
    {
      ok := (tries !in lost);
      tries := tries + 1;
      if ok {
        sent := sent + [m];
      }
    }
  }

  /** How far a file got. */
  datatype FileOutcome = Unsent | Broken(parts: seq<Bytes>) | Whole(parts: seq<Bytes>)

  function FileOutcomeMsgs(h: Hasher, f: Found, r: FileOutcome): seq<Message> {
    match r
    case Unsent => []
    case Broken(parts) => TornFileMsgs(h, TornFile(f, parts), [])
    case Whole(parts) => FileMsgs(FrameOf(h, SentFile(f.relDir, f.name, f.content, parts)), [])
  }

  lemma OneMoreChunk(name: string, parts: seq<Bytes>, bytes: Bytes, sent: seq<Message>)
    ensures sent + ChunkMsgs(Numbered(name, parts + [bytes]), [])
         == sent + ChunkMsgs(Numbered(name, parts), [])
            + [Message(SendingFileCont, ChunkBody(Chunk(bytes, [name], Int32(|parts|))))]
  {
    var c := Chunk(bytes, [name], Int32(|parts|));
    var m := [Message(SendingFileCont, ChunkBody(c))];
    assert Numbered(name, parts + [bytes]) == Numbered(name, parts) + [c];
    ChunkMsgsSnoc(Numbered(name, parts), c, []);
    ChunkMsgsThen(Numbered(name, parts), m);
    Reassociate(sent, ChunkMsgs(Numbered(name, parts), []), m);
    assert m + [] == m;
  }

  lemma OneMoreRead(parts: seq<Bytes>, read: Bytes, bytes: Bytes)
    requires IsReading(parts, read) && 0 < |bytes| <= CHUNK_SIZE
    ensures IsReading(parts + [bytes], read + bytes)
  {
    ConcatSnoc(parts, bytes);
  }

  /** The messages of a whole file, from the pieces in the order they are sent. */
  lemma WholeFile(f: FileFrame)
    ensures [Message(SendingFileInfo, FileBody(f.info))] + ChunkMsgs(f.chunks, [])
            + [Message(SendingFileEof, FileBody(f.eof))] == FileMsgs(f, [])
  {
    var eof := [Message(SendingFileEof, FileBody(f.eof))];
    ChunkMsgsThen(f.chunks, eof);
    assert eof + [] == eof;
  }

  method SendFileContent(outbox: Outbox, file: OpenFile) returns (ok: bool, cnt: int, parts: seq<Bytes>)
    requires file.Valid() && file.cursor == 0
    modifies outbox, file`cursor
    ensures file.Valid()
    ensures outbox.sent == old(outbox.sent) + ChunkMsgs(Numbered(file.found.name, parts), [])
    ensures IsBeginning(parts, file.found.content)
    ensures ok ==> IsReading(parts, file.found.content) && cnt == Int32(|parts|)
    ensures file.readable ==> Tried(outbox.lost, old(outbox.tries), outbox.tries, ok)
  {
    cnt, parts := 0, [];
    ghost var sent0, tries0 := outbox.sent, outbox.tries;
    ghost var read: Bytes := [];
    while true
      invariant file.Valid() && cnt == Int32(|parts|)
      invariant read == file.found.content[..file.cursor] && IsReading(parts, read)
      invariant outbox.sent == sent0 + ChunkMsgs(Numbered(file.found.name, parts), [])
      invariant Tried(outbox.lost, tries0, outbox.tries, true)
      decreases |file.found.content| - file.cursor
    {
      var r := file.GetChunk(CHUNK_SIZE);
      match r {
        case EndOfFile => return true, cnt, parts;
        case ReadError => return false, -1, parts;
        case Data(bytes) =>
          var chunk := Chunk(bytes, [file.found.name], cnt);
          ok := outbox.Send(Message(SendingFileCont, ChunkBody(chunk)));
          if !ok {
            return false, -1, parts;
          }
          OneMoreRead(parts, read, bytes);
          OneMoreChunk(file.found.name, parts, bytes, sent0);
          Int32Succ(|parts|);
          read := read + bytes;
          parts := parts + [bytes];
          cnt := Int32(cnt + 1);
      }
    }
  }

  method SendFileInfo(h: Hasher, outbox: Outbox, file: OpenFile, chunkCnt: int, code: Code) returns (ok: bool)
    requires file.Valid() && (file.hash == [] || file.hash == h(file.found.content))
    modifies outbox, file
    ensures file.Valid() && file.hash == h(file.found.content)
    ensures old(file.hash) == [] ==> file.cursor == 0
    ensures outbox.sent
         == old(outbox.sent) + if ok then [Message(code, FileBody(InfoOf(h, file.found, chunkCnt)))] else []
    ensures Tried(outbox.lost, old(outbox.tries), outbox.tries, ok)
  {
    var hash := file.Hash(h);
    var f := file.found;
    ok := outbox.Send(Message(code, FileBody(FileInfo(|f.content|, chunkCnt, hash, [f.name], RelText(f.relDir)))));
  }

  method SendFile(h: Hasher, outbox: Outbox, file: OpenFile) returns (r: FileOutcome)
    requires file.Valid() && file.hash == []
    modifies outbox, file
    ensures outbox.sent == old(outbox.sent) + FileOutcomeMsgs(h, file.found, r)
    ensures r.Whole? ==> IsReading(r.parts, file.found.content)
    ensures r.Broken? ==> IsBeginning(r.parts, file.found.content)
    ensures file.readable ==> Tried(outbox.lost, old(outbox.tries), outbox.tries, r.Whole?)
  {
    ghost var sent0 := outbox.sent;
    var ok := SendFileInfo(h, outbox, file, Int32(|file.found.content| / CHUNK_SIZE), SendingFileInfo);
    if !ok {
      return Unsent;
    }
    var cnt, parts;
    ok, cnt, parts := SendFileContent(outbox, file);
    ghost var torn := FileOutcomeMsgs(h, file.found, Broken(parts));
    assert outbox.sent == sent0 + torn by {
      var info := [Message(SendingFileInfo, FileBody(HeaderOf(h, file.found)))];
      Reassociate(sent0, info, ChunkMsgs(Numbered(file.found.name, parts), []));
    }
    if !ok {
      return Broken(parts);
    }
    ok := SendFileInfo(h, outbox, file, cnt, SendingFileEof);
    if !ok {
      return Broken(parts);
    }
    WholeFile(FrameOf(h, SentFile(file.found.relDir, file.found.name, file.found.content, parts)));
    Reassociate(sent0, torn, [Message(SendingFileEof, FileBody(InfoOf(h, file.found, cnt)))]);
    return Whole(parts);
  }

  function FoundSent(f: Found, parts: seq<Bytes>): SentFile {
    SentFile(f.relDir, f.name, f.content, parts)
  }

  lemma OneMoreFile(h: Hasher, files: seq<SentFile>, f: SentFile)
    ensures FilesMsgs(FramesOf(h, files + [f]), [])
         == FilesMsgs(FramesOf(h, files), []) + FileMsgs(FrameOf(h, f), [])
  {
    var frames, frame := FramesOf(h, files), FrameOf(h, f);
    assert FramesOf(h, files + [f]) == frames + [frame];
    FilesMsgsSnoc(frames, frame, []);
    FilesMsgsThen(frames, FileMsgs(frame, []));
  }

  lemma OneTornFile(h: Hasher, files: seq<SentFile>, t: TornFile)
    ensures FilesMsgs(FramesOf(h, files), TornFileMsgs(h, t, []))
         == FilesMsgs(FramesOf(h, files), []) + TornFileMsgs(h, t, [])
  {
    FilesMsgsThen(FramesOf(h, files), TornFileMsgs(h, t, []));
  }

  lemma WholeDir(h: Hasher, dirName: PathText, files: seq<SentFile>)
    ensures TornMsgs(h, TornDir(dirName, |files|, files, None), [])
            + [Message(EndOfSendingDir, DirBody(DirInfoOf(dirName, |files|)))]
         == ItemMsgs(ItemOf(h, TopDir(dirName, files)), [])
  {
    var end := [Message(EndOfSendingDir, DirBody(DirInfoOf(dirName, |files|)))];
    FilesMsgsThen(FramesOf(h, files), end);
    assert end + [] == end;
  }

  /** The files of a directory that are through after the next one, and the one cut short. */
  function AfterFile(files: seq<SentFile>, f: Found, r: FileOutcome): (seq<SentFile>, Option<TornFile>) {
    match r
    case Unsent => (files, None)
    case Broken(parts) => (files, Some(TornFile(f, parts)))
    case Whole(parts) => (files + [FoundSent(f, parts)], None)
  }

  lemma DirAfterFile(h: Hasher, files: seq<SentFile>, f: Found, r: FileOutcome)
    ensures FilesMsgs(FramesOf(h, files), []) + FileOutcomeMsgs(h, f, r)
         == FilesMsgs(FramesOf(h, AfterFile(files, f, r).0), TornLastMsgs(h, AfterFile(files, f, r).1, []))
  {
    match r {
      case Unsent =>
      case Broken(parts) => OneTornFile(h, files, TornFile(f, parts));
      case Whole(parts) => OneMoreFile(h, files, FoundSent(f, parts));
    }
  }

  method SendDirFiles(h: Hasher, outbox: Outbox, found: seq<Found>, readable: bool)
    returns (ok: bool, files: seq<SentFile>, last: Option<TornFile>)
    modifies outbox
    ensures outbox.sent == old(outbox.sent) + FilesMsgs(FramesOf(h, files), TornLastMsgs(h, last, []))
    ensures |files| <= |found| && forall i | 0 <= i < |files| :: FoundOf(files[i]) == found[i] && IsSending(files[i])
    ensures ok ==> |files| == |found| && last.None?
    ensures last.Some? ==> IsNext(found, |files|, last.value)
    ensures readable ==> Tried(outbox.lost, old(outbox.tries), outbox.tries, ok)
  {
    files, last := [], None;
    ghost var sent0, tries0 := outbox.sent, outbox.tries;
    for n := 0 to |found|
      invariant |files| == n && last.None?
      invariant forall i | 0 <= i < n :: FoundOf(files[i]) == found[i] && IsSending(files[i])
      invariant outbox.sent == sent0 + FilesMsgs(FramesOf(h, files), [])
      invariant readable ==> Tried(outbox.lost, tries0, outbox.tries, true)
    {
      var file := new OpenFile(found[n], readable);
      var r := SendFile(h, outbox, file);
      DirAfterFile(h, files, found[n], r);
      Reassociate(sent0, FilesMsgs(FramesOf(h, files), []), FileOutcomeMsgs(h, found[n], r));
      var after := AfterFile(files, found[n], r);
      files, last := after.0, after.1;
      if !r.Whole? {
        return false, files, last;
      }
    }
    ok := true;
  }

  /** Sends one directory; `torn` tells how far it got when it fails. */
  method SendDir(h: Hasher, outbox: Outbox, dirName: PathText, found: seq<Found>, readable: bool)
    returns (ok: bool, files: seq<SentFile>, torn: Torn)
    modifies outbox
    ensures outbox.sent == old(outbox.sent)
                           + if ok then ItemMsgs(ItemOf(h, TopDir(dirName, files)), []) else TornMsgs(h, torn, [])
    ensures ok ==> Describes(Folder(dirName, found), TopDir(dirName, files))
    ensures !ok ==> TornFrom(Folder(dirName, found), torn)
    ensures readable ==> Tried(outbox.lost, old(outbox.tries), outbox.tries, ok)
  {
    ghost var sent0 := outbox.sent;
    var opening := Message(SendingDirInfo, DirBody(DirInfoOf(dirName, |found|)));
    ok := outbox.Send(opening);
    if !ok {
      return false, [], TornNone;
    }
    var last;
    ok, files, last := SendDirFiles(h, outbox, found, readable);
    torn := TornDir(dirName, |found|, files, last);
    assert outbox.sent == sent0 + TornMsgs(h, torn, []) by {
      Reassociate(sent0, [opening], FilesMsgs(FramesOf(h, files), TornLastMsgs(h, last, [])));
    }
    if !ok {
      return;
    }
    var closing := Message(EndOfSendingDir, DirBody(DirInfoOf(dirName, |files|)));
    ok := outbox.Send(closing);
    if ok {
      WholeDir(h, dirName, files);
      Reassociate(sent0, TornMsgs(h, torn, []), [closing]);
    }
  }

  lemma OneMoreItem(h: Hasher, items: seq<SentItem>, item: SentItem)
    ensures ItemsMsgs(ItemsOf(h, items + [item]), [])
         == ItemsMsgs(ItemsOf(h, items), []) + ItemMsgs(ItemOf(h, item), [])
  {
    assert ItemsOf(h, items + [item]) == ItemsOf(h, items) + [ItemOf(h, item)];
    ItemsMsgsSnoc(ItemsOf(h, items), ItemOf(h, item), []);
    ItemsMsgsThen(ItemsOf(h, items), ItemMsgs(ItemOf(h, item), []));
  }

  lemma OneTornItem(h: Hasher, items: seq<SentItem>, torn: Torn)
    ensures ItemsMsgs(ItemsOf(h, items), TornMsgs(h, torn, []))
         == ItemsMsgs(ItemsOf(h, items), []) + TornMsgs(h, torn, [])
  {
    ItemsMsgsThen(ItemsOf(h, items), TornMsgs(h, torn, []));
  }

  /** What became of one path. */
  datatype PathOutcome = Skipped | Sent(item: SentItem) | Stopped(torn: Torn)

  function PathOutcomeMsgs(h: Hasher, r: PathOutcome): seq<Message> {
    match r
    case Skipped => []
    case Sent(item) => ItemMsgs(ItemOf(h, item), [])
    case Stopped(torn) => TornMsgs(h, torn, [])
  }

  /** The sources that can be sent, or are left out. */
  predicate CanSend(source: Source) {
    source.Special? || source.PlainFile? || source.Folder?
  }

  method SendPath(h: Hasher, outbox: Outbox, source: Source, readable: bool) returns (r: PathOutcome)
    modifies outbox
    ensures outbox.sent == old(outbox.sent) + PathOutcomeMsgs(h, r)
    ensures r.Skipped? <==> source.Special?
    ensures r.Sent? ==> Describes(source, r.item)
    ensures r.Stopped? ==> TornFrom(source, r.torn)
    ensures readable ==> PathTried(source, r, outbox.lost, old(outbox.tries), outbox.tries)
  {
    match source {
      case Special => return Skipped;
      case PlainFile(name, content) =>
        var file := new OpenFile(Found([], name, content), readable);
        var f := SendFile(h, outbox, file);
        match f {
          case Unsent => return Stopped(TornNone);
          case Broken(parts) => return Stopped(TornTop(TornFile(file.found, parts)));
          case Whole(parts) => return Sent(TopFile(FoundSent(file.found, parts)));
        }
      case Folder(dirName, found) =>
        var ok, files, torn := SendDir(h, outbox, dirName, found, readable);
        return if ok then Sent(TopDir(dirName, files)) else Stopped(torn);
      case _ => return Stopped(TornNone);
    }
  }

  /**
   Where the loop over the paths was left: an error at some path, or a panic anywhere. A panic inside an item leaves the
   same messages as a failing send there, and one between two items leaves whole items.
   */
  datatype Halt = Halt(at: nat, torn: Torn, panics: bool)

  predicate HaltOf(device: Device, paths: seq<PathText>, items: seq<SentItem>, halt: Halt) {
    && halt.at <= |paths| && Sends(device, paths[..halt.at], items)
    && if halt.at < |paths| then TornFrom(SourceOf(device, paths[halt.at]), halt.torn) else halt.torn.TornNone? && halt.panics
  }

  /** The items sent once a path is done. */
  function ItemsAfter(items: seq<SentItem>, r: PathOutcome): seq<SentItem> {
    if r.Sent? then items + [r.item] else items
  }

  lemma PathSent(device: Device, paths: seq<PathText>, n: nat, items: seq<SentItem>, r: PathOutcome)
    requires n < |paths| && Sends(device, paths[..n], items) && !r.Stopped?
    requires var source := SourceOf(device, paths[n]);
             (r.Skipped? <==> source.Special?) && (r.Sent? ==> Describes(source, r.item))
    ensures Sends(device, paths[..n + 1], ItemsAfter(items, r))
  {
    assert paths[..n + 1][..n] == paths[..n];
    if r.Sent? {
      assert (items + [r.item])[..|items|] == items;
    }
  }

  lemma PathMsgs(h: Hasher, sent0: seq<Message>, items: seq<SentItem>, r: PathOutcome)
    ensures sent0 + ItemsMsgs(ItemsOf(h, items), []) + PathOutcomeMsgs(h, r)
         == sent0 + if r.Stopped? then ItemsMsgs(ItemsOf(h, items), TornMsgs(h, r.torn, []))
                    else ItemsMsgs(ItemsOf(h, ItemsAfter(items, r)), [])
  {
    Reassociate(sent0, ItemsMsgs(ItemsOf(h, items), []), PathOutcomeMsgs(h, r));
    match r {
      case Skipped =>
      case Stopped(torn) => OneTornItem(h, items, torn);
      case Sent(item) => OneMoreItem(h, items, item);
    }
  }

  predicate CanSendAll(device: Device, paths: seq<PathText>) {
    paths == [] || (CanSendAll(device, paths[..|paths| - 1]) && CanSend(SourceOf(device, paths[|paths| - 1])))
  }

  /** The loop was left at the first path that cannot be sent, or in the one that the last send tried was for, which failed. */
  predicate LeftAt(device: Device, paths: seq<PathText>, halt: Halt, lost: Lost, from: nat, to: nat) {
    && halt.at < |paths| && CanSendAll(device, paths[..halt.at]) && !halt.panics
    && if CanSend(SourceOf(device, paths[halt.at])) then Tried(lost, from, to, false)
       else Tried(lost, from, to, true) && halt.torn.TornNone?
  }

  lemma CanSendMore(device: Device, paths: seq<PathText>, n: nat)
    requires n < |paths| && CanSendAll(device, paths[..n]) && CanSend(SourceOf(device, paths[n]))
    ensures CanSendAll(device, paths[..n + 1])
  {
    assert paths[..n + 1][..n] == paths[..n];
  }

  /** What the sends tried for one path say of how it went. */
  predicate PathTried(source: Source, r: PathOutcome, lost: Lost, from: nat, to: nat) {
    if CanSend(source) then Tried(lost, from, to, r.Skipped? || r.Sent?)
    else r == Stopped(TornNone) && from == to
  }

  lemma LeftHere(device: Device, paths: seq<PathText>, n: nat, r: PathOutcome, lost: Lost, a: nat, b: nat, c: nat)
    requires n < |paths| && CanSendAll(device, paths[..n]) && r.Stopped?
    requires Tried(lost, a, b, true) && PathTried(SourceOf(device, paths[n]), r, lost, b, c)
    ensures LeftAt(device, paths, Halt(n, r.torn, false), lost, a, c)
  {
    if CanSend(SourceOf(device, paths[n])) {
      TriedThen(lost, a, b, c, false);
    }
  }

  lemma NotLeft(device: Device, paths: seq<PathText>, n: nat, r: PathOutcome, lost: Lost, a: nat, b: nat, c: nat)
    requires n < |paths| && CanSendAll(device, paths[..n]) && !r.Stopped?
    requires Tried(lost, a, b, true) && PathTried(SourceOf(device, paths[n]), r, lost, b, c)
    ensures CanSendAll(device, paths[..n + 1]) && Tried(lost, a, c, true)
  {
    CanSendMore(device, paths, n);
    TriedThen(lost, a, b, c, true);
  }

  /** What the sends tried for a list say of how far it got. */
  predicate ListTried(device: Device, paths: seq<PathText>, stop: Option<Halt>, lost: Lost, from: nat, to: nat) {
    match stop
    case None => CanSendAll(device, paths) && Tried(lost, from, to, true)
    case Some(halt) => LeftAt(device, paths, halt, lost, from, to)
  }

  lemma ListTriedSince(device: Device, paths: seq<PathText>, stop: Option<Halt>, lost: Lost, a: nat, b: nat, c: nat)
    requires Tried(lost, a, b, true) && ListTried(device, paths, stop, lost, b, c)
    ensures ListTried(device, paths, stop, lost, a, c)
  {
    if stop.Some? && CanSend(SourceOf(device, paths[stop.value.at])) {
      TriedThen(lost, a, b, c, false);
    } else {
      TriedThen(lost, a, b, c, true);
    }
  }

  /** `undisturbed` means that no read fails and nothing panics. */
  method SendAnything(h: Hasher, outbox: Outbox, device: Device, paths: seq<PathText>, undisturbed: bool)
    returns (cnt: int, items: seq<SentItem>, stop: Option<Halt>)
    modifies outbox
    ensures stop.None? ==>
      && Sends(device, paths, items) && cnt == FileCount(items)
      && outbox.sent == old(outbox.sent) + ItemsMsgs(ItemsOf(h, items), [])
    ensures stop.Some? ==>
      && cnt == -1 && HaltOf(device, paths, items, stop.value)
      && outbox.sent == old(outbox.sent) + ItemsMsgs(ItemsOf(h, items), TornMsgs(h, stop.value.torn, []))
    ensures undisturbed ==> ListTried(device, paths, stop, outbox.lost, old(outbox.tries), outbox.tries)
  {
    items, stop := [], None;
    ghost var sent0, tries0 := outbox.sent, outbox.tries;
    for n := 0 to |paths|
      invariant Sends(device, paths[..n], items)
      invariant outbox.sent == sent0 + ItemsMsgs(ItemsOf(h, items), [])
      invariant undisturbed ==> CanSendAll(device, paths[..n]) && Tried(outbox.lost, tries0, outbox.tries, true)
    {
      ghost var tries1 := outbox.tries;
      var r := SendPath(h, outbox, SourceOf(device, paths[n]), undisturbed);
      PathMsgs(h, sent0, items, r);
      if r.Stopped? {
        var panics: bool :| undisturbed ==> !panics;
        if undisturbed {
          LeftHere(device, paths, n, r, outbox.lost, tries0, tries1, outbox.tries);
        }
        return -1, items, Some(Halt(n, r.torn, panics));
      }
      PathSent(device, paths, n, items, r);
      if undisturbed {
        NotLeft(device, paths, n, r, outbox.lost, tries0, tries1, outbox.tries);
      }
      items := ItemsAfter(items, r);
    }
    assert paths[..|paths|] == paths;
    cnt := FileCount(items);
    var panics: bool :| undisturbed ==> !panics;
    if panics {
      return -1, items, Some(Halt(|paths|, TornNone, true));
    }
  }

  /** What one run of the client put on the stream. */
  datatype Delivery =
    | NothingSent
    | Complete(items: seq<SentItem>, eosSent: bool)
    | Aborted(items: seq<SentItem>, at: nat, torn: Torn, failedSent: bool, eosSent: bool)
    | Panicked(items: seq<SentItem>, at: nat, torn: Torn, eosSent: bool)

  function EosMsg(fileCnt: int): Message {
    Message(Eos, StreamBody(Int32(fileCnt)))
  }

  const FAILED_MSG := Message(SendingFileFailed, NoBody)

  function EosTail(cnt: int, eosSent: bool): seq<Message> {
    if eosSent then [EosMsg(cnt)] else []
  }

  function AbortTail(failedSent: bool, eosSent: bool): seq<Message> {
    (if failedSent then [FAILED_MSG] else []) + EosTail(-1, eosSent)
  }

  /** A panic leaves the count that the deferred EOS sends at 0, and skips the failure notice. */
  function DeliveryMsgs(h: Hasher, k: SendKanban, d: Delivery): seq<Message> {
    match d
    case NothingSent => []
    case Complete(items, eosSent) => SessionMsgs(k, ItemsOf(h, items), EosTail(FileCount(items), eosSent))
    case Aborted(items, _, torn, failedSent, eosSent) =>
      SessionMsgs(k, ItemsOf(h, items), TornMsgs(h, torn, AbortTail(failedSent, eosSent)))
    case Panicked(items, _, torn, eosSent) =>
      SessionMsgs(k, ItemsOf(h, items), TornMsgs(h, torn, EosTail(0, eosSent)))
  }

  predicate DeliveryOf(device: Device, k: SendKanban, d: Delivery) {
    var paths := k.afterKanban.fileList;
    match d
    case NothingSent => true
    case Complete(items, _) => Sends(device, paths, items)
    case Aborted(items, at, torn, _, _) => HaltOf(device, paths, items, Halt(at, torn, false))
    case Panicked(items, at, torn, _) => HaltOf(device, paths, items, Halt(at, torn, true))
  }

  lemma TornFileMsgsAppend(h: Hasher, t: TornFile, rest: seq<Message>, more: seq<Message>)
    ensures TornFileMsgs(h, t, rest) + more == TornFileMsgs(h, t, rest + more)
  {
    ChunkMsgsAppend(Numbered(t.found.name, t.parts), rest, more);
  }

  lemma TornMsgsAppend(h: Hasher, t: Torn, rest: seq<Message>, more: seq<Message>)
    ensures TornMsgs(h, t, rest) + more == TornMsgs(h, t, rest + more)
  {
    match t {
      case TornNone =>
      case TornTop(f) => TornFileMsgsAppend(h, f, rest, more);
      case TornDir(dirName, fileCnt, files, last) =>
        var inner := TornLastMsgs(h, last, rest);
        FilesMsgsAppend(FramesOf(h, files), inner, more);
        Reassociate([Message(SendingDirInfo, DirBody(DirInfoOf(dirName, fileCnt)))], FilesMsgs(FramesOf(h, files), inner), more);
        if last.Some? {
          TornFileMsgsAppend(h, last.value, rest, more);
        }
    }
  }

  lemma SessionTail(h: Hasher, k: SendKanban, items: seq<SentItem>, torn: Torn, tail: seq<Message>)
    ensures SessionMsgs(k, ItemsOf(h, items), TornMsgs(h, torn, [])) + tail
         == SessionMsgs(k, ItemsOf(h, items), TornMsgs(h, torn, tail))
  {
    SessionMsgsAppend(k, ItemsOf(h, items), TornMsgs(h, torn, []), tail);
    TornMsgsAppend(h, torn, [], tail);
    Reassociate([], [], tail);
  }

  /** The two messages the client tries to send at the end: the failure notice, if an item failed, and EOS. */
  method SendTail(outbox: Outbox, notify: bool, cnt: int) returns (failedSent: bool, eosSent: bool)
    modifies outbox
    ensures outbox.sent == old(outbox.sent) + ((if failedSent then [FAILED_MSG] else []) + EosTail(cnt, eosSent))
    ensures failedSent ==> notify
    ensures outbox.tries == old(outbox.tries) + if notify then 2 else 1
    ensures notify ==> failedSent == (old(outbox.tries) !in outbox.lost)
    ensures eosSent == (outbox.tries - 1 !in outbox.lost)
  {
    failedSent := false;
    if notify {
      failedSent := outbox.Send(FAILED_MSG);
    }
    eosSent := outbox.Send(EosMsg(cnt));
  }

  function TornOf(stop: Option<Halt>): Torn {
    if stop.Some? then stop.value.torn else TornNone
  }

  /** The files of the list, if it is not empty; a panic never gets to set the count. */
  method SendFiles(h: Hasher, outbox: Outbox, device: Device, paths: seq<PathText>, undisturbed: bool)
    returns (cnt: int, items: seq<SentItem>, stop: Option<Halt>)
    modifies outbox
    ensures outbox.sent == old(outbox.sent) + ItemsMsgs(ItemsOf(h, items), TornMsgs(h, TornOf(stop), []))
    ensures cnt == CountOf(items, stop)
    ensures stop.None? ==> Sends(device, paths, items)
    ensures stop.Some? ==> HaltOf(device, paths, items, stop.value)
    ensures undisturbed ==> ListTried(device, paths, stop, outbox.lost, old(outbox.tries), outbox.tries)
  {
    cnt, items, stop := 0, [], None;
    if |paths| > 0 {
      var sentFileCnt;
      sentFileCnt, items, stop := SendAnything(h, outbox, device, paths, undisturbed);
      if stop.None? || !stop.value.panics {
        cnt := sentFileCnt;
      }
    }
  }

  /** The kanban, then every path of its file list. */
  method SendKanbanAndFiles(h: Hasher, outbox: Outbox, device: Device, k: SendKanban, undisturbed: bool)
    returns (begun: bool, cnt: int, items: seq<SentItem>, stop: Option<Halt>)
    modifies outbox
    ensures outbox.sent == old(outbox.sent)
                           + if begun then SessionMsgs(k, ItemsOf(h, items), TornMsgs(h, TornOf(stop), [])) else []
    ensures begun ==> cnt == CountOf(items, stop)
    ensures begun && stop.None? ==> Sends(device, k.afterKanban.fileList, items)
    ensures begun && stop.Some? ==> HaltOf(device, k.afterKanban.fileList, items, stop.value)
    ensures begun == (old(outbox.tries) !in outbox.lost) && (!begun ==> outbox.tries == old(outbox.tries) + 1)
    ensures undisturbed && begun ==>
      ListTried(device, k.afterKanban.fileList, stop, outbox.lost, old(outbox.tries), outbox.tries)
  {
    ghost var sent0, tries0 := outbox.sent, outbox.tries;
    cnt, items, stop := 0, [], None;
    var opening := Message(SendingKanban, KanbanBody(k));
    begun := outbox.Send(opening);
    if begun {
      ghost var tries1 := outbox.tries;
      cnt, items, stop := SendFiles(h, outbox, device, k.afterKanban.fileList, undisturbed);
      Reassociate(sent0, [opening], ItemsMsgs(ItemsOf(h, items), TornMsgs(h, TornOf(stop), [])));
      if undisturbed {
        ListTriedSince(device, k.afterKanban.fileList, stop, outbox.lost, tries0, tries1, outbox.tries);
      }
    }
  }

  /**
   What becomes of an undisturbed run, given which sends succeed. Without the kanban nothing is sent; the run is complete if
   all paths can be sent and no send for them fails; else it is left at the first failure. EOS is tried last in any case,
   the failure notice before it.
   */
  predicate RunsTo(device: Device, k: SendKanban, d: Delivery, lost: Lost, from: nat, to: nat) {
    var paths := k.afterKanban.fileList;
    match d
    case NothingSent => from in lost
    case Complete(_, eosSent) =>
      to > from && CanSendAll(device, paths) && Tried(lost, from, to - 1, true) && eosSent == (to - 1 !in lost)
    case Aborted(_, at, torn, failedSent, eosSent) =>
      && to > from + 1 && LeftAt(device, paths, Halt(at, torn, false), lost, from, to - 2)
      && failedSent == (to - 2 !in lost) && eosSent == (to - 1 !in lost)
    case Panicked(_, _, _, _) => false
  }

  /** How the run ended, once the tail has been tried. */
  function RunOf(items: seq<SentItem>, stop: Option<Halt>, failedSent: bool, eosSent: bool): Delivery {
    if stop.None? then Complete(items, eosSent)
    else if stop.value.panics then Panicked(items, stop.value.at, stop.value.torn, eosSent)
    else Aborted(items, stop.value.at, stop.value.torn, failedSent, eosSent)
  }

  lemma RunEnds(device: Device, k: SendKanban, items: seq<SentItem>, stop: Option<Halt>, failedSent: bool, eosSent: bool,
                lost: Lost, from: nat, mid: nat)
    requires ListTried(device, k.afterKanban.fileList, stop, lost, from, mid)
    requires stop.None? ==> eosSent == (mid !in lost)
    requires stop.Some? ==> failedSent == (mid !in lost) && eosSent == (mid + 1 !in lost)
    ensures RunsTo(device, k, RunOf(items, stop, failedSent, eosSent), lost, from, if stop.None? then mid + 1 else mid + 2)
  {
    if stop.Some? {
      assert stop.value == Halt(stop.value.at, stop.value.torn, false);
    }
  }

  /** The count that the deferred EOS carries. */
  function CountOf(items: seq<SentItem>, stop: Option<Halt>): int {
    if stop.None? then FileCount(items) else if stop.value.panics then 0 else -1
  }

  lemma RunMsgs(h: Hasher, sent0: seq<Message>, k: SendKanban, items: seq<SentItem>, stop: Option<Halt>,
                failedSent: bool, eosSent: bool)
    requires failedSent ==> stop.Some? && !stop.value.panics
    ensures sent0 + SessionMsgs(k, ItemsOf(h, items), TornMsgs(h, TornOf(stop), []))
            + ((if failedSent then [FAILED_MSG] else []) + EosTail(CountOf(items, stop), eosSent))
         == sent0 + DeliveryMsgs(h, k, RunOf(items, stop, failedSent, eosSent))
  {
    var tail := (if failedSent then [FAILED_MSG] else []) + EosTail(CountOf(items, stop), eosSent);
    Reassociate(sent0, SessionMsgs(k, ItemsOf(h, items), TornMsgs(h, TornOf(stop), [])), tail);
    SessionTail(h, k, items, TornOf(stop), tail);
    assert !failedSent ==> tail == EosTail(CountOf(items, stop), eosSent);
  }

  lemma RunIs(device: Device, k: SendKanban, items: seq<SentItem>, stop: Option<Halt>, failedSent: bool, eosSent: bool)
    requires stop.None? ==> Sends(device, k.afterKanban.fileList, items)
    requires stop.Some? ==> HaltOf(device, k.afterKanban.fileList, items, stop.value)
    ensures DeliveryOf(device, k, RunOf(items, stop, failedSent, eosSent))
    ensures !RunOf(items, stop, failedSent, eosSent).NothingSent?
  {
    if stop.Some? {
      assert stop.value == Halt(stop.value.at, stop.value.torn, stop.value.panics);
    }
  }

  /** The end of a run: the two messages, and what the run came to. */
  method EndRun(h: Hasher, outbox: Outbox, k: SendKanban, items: seq<SentItem>, stop: Option<Halt>, cnt: int, ghost sent0: seq<Message>)
    returns (failedSent: bool, eosSent: bool)
    requires cnt == CountOf(items, stop)
    requires outbox.sent == sent0 + SessionMsgs(k, ItemsOf(h, items), TornMsgs(h, TornOf(stop), []))
    modifies outbox
    ensures outbox.sent == sent0 + DeliveryMsgs(h, k, RunOf(items, stop, failedSent, eosSent))
    ensures var notify := stop.Some? && !stop.value.panics;
            && outbox.tries == old(outbox.tries) + (if notify then 2 else 1)
            && (notify ==> failedSent == (old(outbox.tries) !in outbox.lost))
            && eosSent == (outbox.tries - 1 !in outbox.lost)
  {
    failedSent, eosSent := SendTail(outbox, stop.Some? && !stop.value.panics, cnt);
    RunMsgs(h, sent0, k, items, stop, failedSent, eosSent);
  }

  /** The whole client run: kanban, items, the failure notice if an item failed, and always an attempt at EOS. */
  method SendToOtherDevice(h: Hasher, outbox: Outbox, device: Device, k: SendKanban, undisturbed: bool) returns (d: Delivery)
    modifies outbox
    ensures outbox.sent == old(outbox.sent) + DeliveryMsgs(h, k, d)
    ensures DeliveryOf(device, k, d)
    ensures d.NothingSent? <==> old(outbox.tries) in outbox.lost
    ensures !undisturbed || RunsTo(device, k, d, outbox.lost, old(outbox.tries), outbox.tries)
  {
    ghost var sent0, tries0 := outbox.sent, outbox.tries;
    var begun, cnt, items, stop := SendKanbanAndFiles(h, outbox, device, k, undisturbed);
    if !begun {
      return NothingSent;
    }
    ghost var tries1 := outbox.tries;
    var failedSent, eosSent := EndRun(h, outbox, k, items, stop, cnt, sent0);
    d := RunOf(items, stop, failedSent, eosSent);
    RunIs(device, k, items, stop, failedSent, eosSent);
    if undisturbed {
      RunEnds(device, k, items, stop, failedSent, eosSent, outbox.lost, tries0, tries1);
    }
  }
}
