/**
 From device to device: where each listed file's bytes are after a complete, acknowledged delivery, said in terms of what
 the sending device holds. Main result: `BytesArrive`.
 */
module Arrival {
  import opened Basics
  import opened Paths
  import opened FileStore
  import opened Kanbans
  import opened Messages
  import opened Receiver
  import opened Language
  import opened Sender
  import opened Storage
  import opened Transfer
  import opened Trees

  /**
   The listed path `p` stands for a file to be found at `rel` below the output directory: `p` leads to that file, and `rel`
   is its name, or `p` leads to the directory that holds the file, and `rel` is the directory's base name and the file's.
   */
  ghost predicate Outputs(device: Device, p: PathText, rel: seq<string>, content: Bytes) {
    var target := TargetOf(device, p);
    || (target != [] && rel == [Last(target)] && At(device.root, target, FileNode(content)))
    || (rel != [] && rel == OutBase(BaseText(TextOf(device, p))) + [Last(rel)] && LeadsToDir(device, p)
        && At(device.root, target + [Last(rel)], FileNode(content)))
  }

  ghost predicate LeadsToDir(device: Device, p: PathText) {
    exists entries :: At(device.root, TargetOf(device, p), DirNode(entries))
  }

  ghost predicate OutputsSome(device: Device, p: PathText, rel: seq<string>) {
    exists content :: Outputs(device, p, rel, content)
  }

  /** The last listed path that stands for a file at `rel` stands for this content. */
  ghost predicate OutputsLast(device: Device, paths: seq<PathText>, rel: seq<string>, content: Bytes)
    decreases |paths|
  {
    && paths != []
    && var front, p := paths[..|paths| - 1], paths[|paths| - 1];
       Outputs(device, p, rel, content) || (!OutputsSome(device, p, rel) && OutputsLast(device, front, rel, content))
  }

  // ---- The disk after some writes

  lemma {:induction false} AfterAppend(ps: seq<Placed>, qs: seq<Placed>, fs: FS)
    ensures After(ps + qs, fs) == After(qs, After(ps, fs))
    decreases |qs|
  {
    if qs == [] {
      assert ps + qs == ps;
    } else {
      assert (ps + qs)[..|ps + qs| - 1] == ps + qs[..|qs| - 1];
      AfterAppend(ps, qs[..|qs| - 1], fs);
    }
  }

  /** The writes put the content at the path. */
  ghost predicate Puts(qs: seq<Placed>, path: AbsPath, content: Bytes) {
    exists i | 0 <= i < |qs| :: PathOf(qs[i]) == path && qs[i].file.content == content
  }

  function FileAt(fs: FS, path: AbsPath): Option<Bytes> {
    if path in fs.files then Some(fs.files[path]) else None
  }

  /** Writes that never put two contents at the path. */
  ghost predicate Agree(qs: seq<Placed>, path: AbsPath) {
    forall i, j | 0 <= i < |qs| && 0 <= j < |qs| && PathOf(qs[i]) == path && PathOf(qs[j]) == path ::
      qs[i].file.content == qs[j].file.content
  }

  lemma {:induction false} AfterAgreed(qs: seq<Placed>, fs: FS, path: AbsPath, content: Bytes)
    requires Agree(qs, path)
    ensures FileAt(After(qs, fs), path) == Some(content)
       <==> Puts(qs, path, content) || (FileAt(fs, path) == Some(content) && forall i | 0 <= i < |qs| :: PathOf(qs[i]) != path)
    decreases |qs|
  {
    if qs != [] {
      var front, q := qs[..|qs| - 1], qs[|qs| - 1];
      assert forall i | 0 <= i < |front| :: front[i] == qs[i];
      AfterAgreed(front, fs, path, content);
      if Puts(front, path, content) {
        var i :| 0 <= i < |front| && PathOf(front[i]) == path && front[i].file.content == content;
        assert PathOf(qs[i]) == path;
      }
    }
  }

  // ---- What one path puts on the disk

  predicate Flat(item: SentItem) {
    match item
    case TopFile(f) => f.relDir == []
    case TopDir(_, files) => forall i | 0 <= i < |files| :: files[i].relDir == []
  }

  ghost predicate DescribedFlat(device: Device, p: PathText, item: SentItem) {
    Describes(SourceOf(device, p), item) && PlainItem(item) && Flat(item)
  }

  /** The device is a tree with plain names in which the names of one directory differ. */
  ghost predicate TreeDevice(device: Device) {
    NamedDevice(device) && Distinct(device.root)
  }

  lemma FilePuts(device: Device, p: PathText, item: SentItem, out: AbsPath, rel: seq<string>, content: Bytes)
    requires TreeDevice(device) && DescribedFlat(device, p, item) && item.TopFile?
    ensures Puts(PlacedItem(out, item), out + rel, content) <==> Outputs(device, p, rel, content)
  {
    var f, target := item.file, TargetOf(device, p);
    SourceExactly(device, p);
    assert At(device.root, target, FileNode(f.content)) && f.name == Last(target);
    forall n | At(device.root, target, n)
      ensures n == FileNode(f.content)
    {
      AtUnique(device.root, target, n, FileNode(f.content));
    }
    assert PlacedItem(out, item) == [Placed(out, f)];
    assert out + [f.name] == out + rel <==> rel == [f.name] by {
      if out + [f.name] == out + rel {
        assert (out + rel)[|out|..] == rel && (out + [f.name])[|out|..] == [f.name];
      }
    }
    if f.content == content && rel == [f.name] {
      assert PathOf(PlacedItem(out, item)[0]) == out + rel;
    }
  }

  /** A flat directory's file with this name and content. */
  ghost predicate HasFile(files: seq<SentFile>, name: string, content: Bytes) {
    exists i | 0 <= i < |files| :: files[i].name == name && files[i].content == content
  }

  lemma FilesPut(dir: AbsPath, files: seq<SentFile>, path: AbsPath, content: Bytes)
    ensures Puts(PlacedFiles(dir, files), path, content)
       <==> path != [] && Drop(path) == dir && HasFile(files, Last(path), content)
  {
    var qs := PlacedFiles(dir, files);
    if Puts(qs, path, content) {
      var i :| 0 <= i < |qs| && PathOf(qs[i]) == path && qs[i].file.content == content;
      assert files[i].name == Last(path);
    }
    if path != [] && Drop(path) == dir && HasFile(files, Last(path), content) {
      var i :| 0 <= i < |files| && files[i].name == Last(path) && files[i].content == content;
      DropLast(path);
      assert PathOf(qs[i]) == path && qs[i].file.content == content;
    }
  }

  /** The files sent of a directory are those it holds. */
  lemma FilesHeld(device: Device, p: PathText, item: SentItem, name: string, content: Bytes)
    requires TreeDevice(device) && DescribedFlat(device, p, item) && item.TopDir?
    ensures LeadsToDir(device, p) && item.dirName == BaseText(TextOf(device, p))
    ensures HasFile(item.files, name, content) <==> At(device.root, TargetOf(device, p) + [name], FileNode(content))
  {
    var found, target := SourceOf(device, p).found, TargetOf(device, p);
    SourceExactly(device, p);
    var entries :| Holds(device.root, target, entries, found);
    var f := Found([], name, content);
    assert [] + [name] == [name];
    assert f in found <==> At(device.root, target + (f.relDir + [f.name]), FileNode(f.content));
    if HasFile(item.files, name, content) {
      var i :| 0 <= i < |item.files| && item.files[i].name == name && item.files[i].content == content;
      assert FoundOf(item.files[i]) == f == found[i];
    }
    if f in found {
      var i :| 0 <= i < |found| && found[i] == f;
      assert FoundOf(item.files[i]) == f;
    }
  }

  lemma DirPuts(device: Device, p: PathText, item: SentItem, out: AbsPath, rel: seq<string>, content: Bytes)
    requires TreeDevice(device) && DescribedFlat(device, p, item) && item.TopDir? && rel != []
    ensures Puts(PlacedItem(out, item), out + rel, content) <==> Outputs(device, p, rel, content)
  {
    var base := OutBase(item.dirName);
    FilesPut(out + base, item.files, out + rel, content);
    FilesHeld(device, p, item, Last(rel), content);
    assert Last(out + rel) == Last(rel) && Drop(out + rel) == out + Drop(rel);
    SamePrefix(out, Drop(rel), base);
    DropLast(rel);
    SameTail(rel, base);
    NotBoth(device, p, content);
  }

  lemma SamePrefix<T>(a: seq<T>, b: seq<T>, c: seq<T>)
    ensures a + b == a + c <==> b == c
  {
    assert (a + b)[|a|..] == b && (a + c)[|a|..] == c;
  }

  lemma SameTail(rel: seq<string>, base: seq<string>)
    requires rel != []
    ensures rel == base + [Last(rel)] <==> Drop(rel) == base
  {
    DropLast(rel);
  }

  lemma NotBoth(device: Device, p: PathText, content: Bytes)
    requires Distinct(device.root) && LeadsToDir(device, p)
    ensures !At(device.root, TargetOf(device, p), FileNode(content))
  {
    var entries :| At(device.root, TargetOf(device, p), DirNode(entries));
    if At(device.root, TargetOf(device, p), FileNode(content)) {
      AtUnique(device.root, TargetOf(device, p), DirNode(entries), FileNode(content));
    }
  }

  lemma ItemPuts(device: Device, p: PathText, item: SentItem, out: AbsPath, rel: seq<string>, content: Bytes)
    requires TreeDevice(device) && DescribedFlat(device, p, item) && rel != []
    ensures Puts(PlacedItem(out, item), out + rel, content) <==> Outputs(device, p, rel, content)
  {
    if item.TopFile? {
      FilePuts(device, p, item, out, rel, content);
    } else {
      DirPuts(device, p, item, out, rel, content);
    }
  }

  /** One path stands for one file at most at each place. */
  lemma OneOutput(device: Device, p: PathText, rel: seq<string>, a: Bytes, b: Bytes)
    requires TreeDevice(device) && Outputs(device, p, rel, a) && Outputs(device, p, rel, b)
    ensures a == b
  {
    var target := TargetOf(device, p);
    if LeadsToDir(device, p) {
      NotBoth(device, p, a);
      NotBoth(device, p, b);
      AtUnique(device.root, target + [Last(rel)], FileNode(a), FileNode(b));
    } else {
      AtUnique(device.root, target, FileNode(a), FileNode(b));
    }
  }

  /** Something that is neither file nor directory stands for no file. */
  lemma NoOutput(device: Device, p: PathText, rel: seq<string>)
    requires TreeDevice(device) && SourceOf(device, p).Special?
    ensures !OutputsSome(device, p, rel)
  {
    var target := TargetOf(device, p);
    SourceExactly(device, p);
    forall n | At(device.root, target, n)
      ensures n == SpecialNode
    {
      AtUnique(device.root, target, n, SpecialNode);
    }
  }

  lemma ItemAgrees(device: Device, p: PathText, item: SentItem, out: AbsPath, rel: seq<string>)
    requires TreeDevice(device) && DescribedFlat(device, p, item) && rel != []
    ensures Agree(PlacedItem(out, item), out + rel)
    ensures OutputsSome(device, p, rel) <==> exists i | 0 <= i < |PlacedItem(out, item)| :: PathOf(PlacedItem(out, item)[i]) == out + rel
  {
    var qs := PlacedItem(out, item);
    forall content
      ensures Puts(qs, out + rel, content) <==> Outputs(device, p, rel, content)
    {
      ItemPuts(device, p, item, out, rel, content);
    }
    forall i | 0 <= i < |qs| && PathOf(qs[i]) == out + rel
      ensures Outputs(device, p, rel, qs[i].file.content)
    {
      assert Puts(qs, out + rel, qs[i].file.content);
    }
    forall i, j | 0 <= i < |qs| && 0 <= j < |qs| && PathOf(qs[i]) == out + rel && PathOf(qs[j]) == out + rel
      ensures qs[i].file.content == qs[j].file.content
    {
      OneOutput(device, p, rel, qs[i].file.content, qs[j].file.content);
    }
  }

  /** One more path: its file is at `rel` now if it has one, else what was there before. */
  lemma ItemArrives(device: Device, p: PathText, item: SentItem, out: AbsPath, fs: FS, rel: seq<string>, content: Bytes)
    requires TreeDevice(device) && DescribedFlat(device, p, item) && rel != []
    ensures FileAt(After(PlacedItem(out, item), fs), out + rel) == Some(content)
       <==> Outputs(device, p, rel, content) || (!OutputsSome(device, p, rel) && FileAt(fs, out + rel) == Some(content))
  {
    ItemAgrees(device, p, item, out, rel);
    ItemPuts(device, p, item, out, rel, content);
    AfterAgreed(PlacedItem(out, item), fs, out + rel, content);
  }

  lemma {:induction false} PlacedItemsAppend(out: AbsPath, a: seq<SentItem>, b: seq<SentItem>)
    ensures PlacedItems(out, a + b) == PlacedItems(out, a) + PlacedItems(out, b)
    decreases |a|
  {
    if a == [] {
      assert a + b == b;
    } else {
      assert (a + b)[1..] == a[1..] + b;
      PlacedItemsAppend(out, a[1..], b);
      Reassociate(PlacedItem(out, a[0]), PlacedItems(out, a[1..]), PlacedItems(out, b));
    }
  }

  lemma PlacedItemsSnoc(out: AbsPath, items: seq<SentItem>, fs: FS)
    requires items != []
    ensures var front, item := items[..|items| - 1], items[|items| - 1];
            After(PlacedItems(out, items), fs) == After(PlacedItem(out, item), After(PlacedItems(out, front), fs))
  {
    var front, item := items[..|items| - 1], items[|items| - 1];
    assert items == front + [item];
    PlacedItemsAppend(out, front, [item]);
    PlacedOne(out, item);
    AfterAppend(PlacedItems(out, front), PlacedItem(out, item), fs);
  }

  predicate AllFlat(items: seq<SentItem>) {
    forall i | 0 <= i < |items| :: Flat(items[i])
  }

  lemma {:induction false} StorableFlat(out: AbsPath, items: seq<SentItem>)
    requires forall i | 0 <= i < |PlacedItems(out, items)| :: PlacedItems(out, items)[i].file.relDir == []
    ensures AllFlat(items)
    decreases |items|
  {
    if items != [] {
      var ps, here, later := PlacedItems(out, items), PlacedItem(out, items[0]), PlacedItems(out, items[1..]);
      assert forall i | 0 <= i < |later| :: later[i] == ps[|here| + i];
      StorableFlat(out, items[1..]);
      assert forall i | 0 <= i < |here| :: here[i] == ps[i];
      if items[0].TopDir? {
        assert forall i | 0 <= i < |items[0].files| :: here[i].file == items[0].files[i];
      }
    }
  }

  lemma {:induction false} PathsArrive(device: Device, paths: seq<PathText>, items: seq<SentItem>, out: AbsPath, fs: FS,
                                       rel: seq<string>, content: Bytes)
    requires TreeDevice(device) && PlainBases(device, paths) && Sends(device, paths, items) && AllFlat(items)
    requires rel != [] && out + rel !in fs.files
    ensures FileAt(After(PlacedItems(out, items), fs), out + rel) == Some(content) <==> OutputsLast(device, paths, rel, content)
    decreases |paths|
  {
    if paths != [] {
      var before, p := paths[..|paths| - 1], paths[|paths| - 1];
      assert PlainBase(SourceOf(device, p));
      assert forall i | 0 <= i < |before| :: before[i] == paths[i];
      if SourceOf(device, p).Special? {
        NoOutput(device, p, rel);
        PathsArrive(device, before, items, out, fs, rel, content);
      } else {
        var front, item := items[..|items| - 1], items[|items| - 1];
        assert AllFlat(front) && Flat(item);
        SourcePlain(device, p, item);
        PathsArrive(device, before, front, out, fs, rel, content);
        PlacedItemsSnoc(out, items, fs);
        ItemArrives(device, p, item, out, After(PlacedItems(out, front), fs), rel, content);
      }
    }
  }

  // ---- A complete, acknowledged delivery

  /** What the client of a complete run has put on the stream, EOS included. */
  function CompleteMsgs(h: Hasher, k: SendKanban, items: seq<SentItem>): seq<Message> {
    DeliveryMsgs(h, k, Complete(items, true))
  }

  /** The run sent all the kanban's paths from a device whose directories are spelt with plain names, and was acknowledged. */
  ghost predicate Acknowledged(h: Hasher, device: Device, dataDir: AbsPath, k: SendKanban, items: seq<SentItem>, fs: FS) {
    && TreeDevice(device) && PlainBases(device, k.afterKanban.fileList)
    && DeliveryOf(device, k, Complete(items, true)) && FreshFor(dataDir, k, fs)
    && ParseSession(h, dataDir, CompleteMsgs(h, k, items), fs).ok
  }

  lemma AcknowledgedExactly(h: Hasher, device: Device, dataDir: AbsPath, k: SendKanban, items: seq<SentItem>, fs: FS)
    requires TreeDevice(device) && PlainBases(device, k.afterKanban.fileList)
    requires Sends(device, k.afterKanban.fileList, items) && FreshFor(dataDir, k, fs)
    ensures Acknowledged(h, device, dataDir, k, items, fs) <==> Storable(PlacedSession(dataDir, k, items))
  {
    SendsRegular(device, k.afterKanban.fileList, items);
    RoundTrip(h, dataDir, k, items, [], fs);
    assert EosTail(FileCount(items), true) == [EosMsg(FileCount(items))] + [];
  }

  lemma Delivered(h: Hasher, device: Device, dataDir: AbsPath, k: SendKanban, items: seq<SentItem>, fs: FS)
    requires Acknowledged(h, device, dataDir, k, items, fs)
    ensures Regular(items) && AllFlat(items)
    ensures var s, out := ParseSession(h, dataDir, CompleteMsgs(h, k, items), fs), ServiceDir(dataDir, k);
            && s.forwarded == Some(WithFileList(k, DirTexts(out, items) + FileTexts(out, items))) && s.rest == []
            && s.fs == After(PlacedItems(out, items), MakeDir(fs, out))
  {
    SendsRegular(device, k.afterKanban.fileList, items);
    RoundTrip(h, dataDir, k, items, [], fs);
    assert EosTail(FileCount(items), true) == [EosMsg(FileCount(items))] + [];
    StorableFlat(ServiceDir(dataDir, k), items);
  }

  /**
   From device to device: a file is at a place below the output directory, with these bytes, exactly if the last listed path
   that stands for a file at that place leads to a file with these bytes on the sending device. The output directory is the
   one whose name reads back to the service and the number that the kanban is addressed to.
   */
  lemma BytesArrive(h: Hasher, device: Device, dataDir: AbsPath, k: SendKanban, items: seq<SentItem>, fs: FS,
                    rel: seq<string>, content: Bytes)
    requires Acknowledged(h, device, dataDir, k, items, fs) && k.nextService != [] && rel != []
    ensures var s, out := ParseSession(h, dataDir, CompleteMsgs(h, k, items), fs), ServiceDir(dataDir, k);
            && out != [] && Drop(out) == Join(dataDir, Drop(k.nextService))
            && InstanceOf(Last(out)) == Some((Last(k.nextService), k.nextNumber))
            && (FileAt(s.fs, out + rel) == Some(content) <==> OutputsLast(device, k.afterKanban.fileList, rel, content))
  {
    var out := ServiceDir(dataDir, k);
    ServiceDirBelow(dataDir, k);
    Delivered(h, device, dataDir, k, items, fs);
    assert |out + rel| > |out| && (out + rel)[..|out|] == out;
    PathsArrive(device, k.afterKanban.fileList, items, out, MakeDir(fs, out), rel, content);
  }

  lemma {:induction false} Untouched(ps: seq<Placed>, fs: FS, path: AbsPath)
    requires forall i | 0 <= i < |ps| :: PathOf(ps[i]) != path
    ensures FileAt(After(ps, fs), path) == FileAt(fs, path)
    decreases |ps|
  {
    if ps != [] {
      Untouched(ps[..|ps| - 1], fs, path);
    }
  }

  lemma NoneOutside(out: AbsPath, ps: seq<Placed>, path: AbsPath)
    requires AllUnder(out, ps) && (|path| <= |out| || path[..|out|] != out)
    ensures forall i | 0 <= i < |ps| :: PathOf(ps[i]) != path
  {
    forall i | 0 <= i < |ps|
      ensures PathOf(ps[i]) != path
    {
      assert PlacedUnder(out, ps[i]);
      assert PathOf(ps[i])[..|out|] == ps[i].dir[..|out|];
    }
  }

  /** Every file outside the output directory is as it was. */
  lemma NothingElse(h: Hasher, device: Device, dataDir: AbsPath, k: SendKanban, items: seq<SentItem>, fs: FS, path: AbsPath)
    requires Acknowledged(h, device, dataDir, k, items, fs)
    requires |path| <= |ServiceDir(dataDir, k)| || path[..|ServiceDir(dataDir, k)|] != ServiceDir(dataDir, k)
    ensures FileAt(ParseSession(h, dataDir, CompleteMsgs(h, k, items), fs).fs, path) == FileAt(fs, path)
  {
    var out := ServiceDir(dataDir, k);
    var ps := PlacedItems(out, items);
    Delivered(h, device, dataDir, k, items, fs);
    PlacedRegular(out, items);
    NoneOutside(out, ps, path);
    Untouched(ps, MakeDir(fs, out), path);
  }

  // ---- For instance: one file of one byte

  const ONE_FILE_DEVICE := Device(DirNode([Entry("a", FileNode([7]))]), [])

  const ONE_FILE := TopFile(SentFile([], "a", [7], [[7]]))

  lemma OneFileThere()
    ensures TreeDevice(ONE_FILE_DEVICE) && SourceOf(ONE_FILE_DEVICE, ["", "a"]) == Source.PlainFile("a", [7])
    ensures Outputs(ONE_FILE_DEVICE, ["", "a"], ["a"], [7])
  {
    var entries := [Entry("a", FileNode([7]))];
    assert entries[1..] == [];
    assert TargetOf(ONE_FILE_DEVICE, ["", "a"]) == ["a"] by {
      JoinPiece([], "");
      JoinPieces([], [""], ["a"]);
      JoinPiece([], "a");
      assert ["", "a"] == [""] + ["a"] && [] + ["a"] == ["a"];
    }
    assert ["a"][1..] == [];
    assert Find(entries, "a") == Some(FileNode([7]));
    LookupExactly(ONE_FILE_DEVICE.root, ["a"], FileNode([7]));
  }

  lemma OneFileSends()
    ensures Sends(ONE_FILE_DEVICE, [["", "a"]], [ONE_FILE]) && PlainBases(ONE_FILE_DEVICE, [["", "a"]])
  {
    OneFileThere();
    assert [["", "a"]][..0] == [] && [ONE_FILE][..0] == [];
    assert [[7 as byte]][1..] == [] && [7 as byte] + [] == [7];
    assert IsReading([[7]], [7]);
  }

  lemma OneFileStored(out: AbsPath)
    ensures Storable(PlacedItems(out, [ONE_FILE]))
  {
    PlacedOne(out, ONE_FILE);
    assert PlacedItem(out, ONE_FILE) == [Placed(out, ONE_FILE.file)];
  }

  lemma OneFileAcknowledged(h: Hasher, dataDir: AbsPath, k: SendKanban, fs: FS)
    requires k.afterKanban.fileList == [["", "a"]] && FreshFor(dataDir, k, fs)
    ensures Acknowledged(h, ONE_FILE_DEVICE, dataDir, k, [ONE_FILE], fs)
  {
    OneFileThere();
    OneFileSends();
    OneFileStored(ServiceDir(dataDir, k));
    AcknowledgedExactly(h, ONE_FILE_DEVICE, dataDir, k, [ONE_FILE], fs);
  }

  lemma OneFileLast(paths: seq<PathText>)
    requires paths == [["", "a"]]
    ensures OutputsLast(ONE_FILE_DEVICE, paths, ["a"], [7])
  {
    OneFileThere();
  }

  /** Listed alone it is acknowledged, and its byte is on the other device. */
  lemma OneByteArrives(h: Hasher, dataDir: AbsPath, k: SendKanban, fs: FS)
    requires k.afterKanban.fileList == [["", "a"]] && FreshFor(dataDir, k, fs) && k.nextService != []
    ensures Acknowledged(h, ONE_FILE_DEVICE, dataDir, k, [ONE_FILE], fs)
    ensures FileAt(ParseSession(h, dataDir, CompleteMsgs(h, k, [ONE_FILE]), fs).fs, ServiceDir(dataDir, k) + ["a"]) == Some([7])
  {
    OneFileAcknowledged(h, dataDir, k, fs);
    OneFileLast(k.afterKanban.fileList);
    BytesArrive(h, ONE_FILE_DEVICE, dataDir, k, [ONE_FILE], fs, ["a"], [7]);
  }

  // ---- The rewritten list

  ghost predicate LeadsToFile(device: Device, p: PathText) {
    exists content :: At(device.root, TargetOf(device, p), FileNode(content))
  }

  /** The directories listed, each by its place below the output directory. */
  ghost function DirsListed(device: Device, out: AbsPath, paths: seq<PathText>): seq<PathText> {
    if paths == [] then []
    else
      var before, p := DirsListed(device, out, paths[..|paths| - 1]), paths[|paths| - 1];
      if LeadsToDir(device, p) then before + [Text(out + OutBase(BaseText(TextOf(device, p))))] else before
  }

  ghost function FilesListed(device: Device, out: AbsPath, paths: seq<PathText>): seq<PathText> {
    if paths == [] then []
    else
      var before, p := FilesListed(device, out, paths[..|paths| - 1]), paths[|paths| - 1];
      var target := TargetOf(device, p);
      if LeadsToFile(device, p) && target != [] then before + [Text(out + [Last(target)])] else before
  }

  lemma {:induction false} TextsAppend(out: AbsPath, a: seq<SentItem>, b: seq<SentItem>)
    ensures DirTexts(out, a + b) == DirTexts(out, a) + DirTexts(out, b)
    ensures FileTexts(out, a + b) == FileTexts(out, a) + FileTexts(out, b)
    decreases |a|
  {
    if a == [] {
      assert a + b == b;
    } else {
      assert (a + b)[0] == a[0] && (a + b)[1..] == a[1..] + b;
      TextsAppend(out, a[1..], b);
      TextsCons(out, a);
      TextsCons(out, a + b);
      Reassociate(DirTexts(out, [a[0]]), DirTexts(out, a[1..]), DirTexts(out, b));
      Reassociate(FileTexts(out, [a[0]]), FileTexts(out, a[1..]), FileTexts(out, b));
    }
  }

  lemma TextsSnoc(out: AbsPath, items: seq<SentItem>)
    requires items != []
    ensures var front, item := items[..|items| - 1], items[|items| - 1];
            && DirTexts(out, items)
            == (if item.TopDir? then DirTexts(out, front) + [Text(out + OutBase(item.dirName))] else DirTexts(out, front))
            && FileTexts(out, items)
            == (if item.TopFile? then FileTexts(out, front) + [Text(out + [item.file.name])] else FileTexts(out, front))
  {
    var front, item := items[..|items| - 1], items[|items| - 1];
    assert items == front + [item];
    TextsAppend(out, front, [item]);
    TextsOfOne(out, item);
  }

  lemma PathListed(device: Device, p: PathText, item: SentItem)
    requires TreeDevice(device) && Describes(SourceOf(device, p), item)
    ensures LeadsToDir(device, p) <==> item.TopDir?
    ensures LeadsToFile(device, p) <==> item.TopFile?
    ensures item.TopDir? ==> item.dirName == BaseText(TextOf(device, p))
    ensures item.TopFile? ==> TargetOf(device, p) != [] && item.file.name == Last(TargetOf(device, p))
  {
    SourceExactly(device, p);
    var target := TargetOf(device, p);
    forall m, n | At(device.root, target, m) && At(device.root, target, n)
      ensures m == n
    {
      AtUnique(device.root, target, m, n);
    }
  }

  lemma SpecialUnlisted(device: Device, p: PathText)
    requires TreeDevice(device) && SourceOf(device, p).Special?
    ensures !LeadsToDir(device, p) && !LeadsToFile(device, p)
  {
    SourceExactly(device, p);
    var target := TargetOf(device, p);
    forall n | At(device.root, target, n)
      ensures n == SpecialNode
    {
      AtUnique(device.root, target, n, SpecialNode);
    }
  }

  lemma {:induction false} TextsListed(device: Device, out: AbsPath, paths: seq<PathText>, items: seq<SentItem>)
    requires TreeDevice(device) && Sends(device, paths, items)
    ensures DirTexts(out, items) == DirsListed(device, out, paths) && FileTexts(out, items) == FilesListed(device, out, paths)
    decreases |paths|
  {
    if paths != [] {
      var before, p := paths[..|paths| - 1], paths[|paths| - 1];
      if SourceOf(device, p).Special? {
        SpecialUnlisted(device, p);
        TextsListed(device, out, before, items);
      } else {
        var front, item := items[..|items| - 1], items[|items| - 1];
        PathListed(device, p, item);
        TextsListed(device, out, before, front);
        TextsSnoc(out, items);
      }
    }
  }

  /**
   The service gets the kanban with its list rewritten to where things are now: first the directories listed, then the
   files, each in the order of the original list; entries that are neither are gone. Nothing else in the kanban changes.
   */
  lemma ListRewritten(h: Hasher, device: Device, dataDir: AbsPath, k: SendKanban, items: seq<SentItem>, fs: FS)
    requires Acknowledged(h, device, dataDir, k, items, fs)
    ensures var paths, out := k.afterKanban.fileList, ServiceDir(dataDir, k);
            var forwarded := ParseSession(h, dataDir, CompleteMsgs(h, k, items), fs).forwarded;
            && forwarded.Some? && SameButList(k, forwarded.value)
            && forwarded.value.afterKanban.fileList == DirsListed(device, out, paths) + FilesListed(device, out, paths)
  {
    Delivered(h, device, dataDir, k, items, fs);
    TextsListed(device, ServiceDir(dataDir, k), k.afterKanban.fileList, items);
  }
}
