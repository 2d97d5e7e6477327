/**
 The transfer protocol end to end: the sender's messages run through the receiver.
 Main results: `RoundTrip`, `EveryFileArrives`, `NoProperPrefixAccepted`.
 */
module Transfer {
  import opened Basics
  import Decimal
  import opened Paths
  import opened FileStore
  import opened Kanbans
  import opened Messages
  import opened Receiver
  import opened Language
  import opened Sender
  import opened Storage

  // ---- What the sender's names guarantee

  predicate PlainFile(f: SentFile) {
    Plain(f.name) && AllPlain(f.relDir)
  }

  /** The base name of a listed directory: an entry name, or "." for ".../.", or "/" for the root. */
  predicate IsBase(dirName: PathText) {
    (|dirName| == 1 && (Plain(dirName[0]) || dirName[0] == ".")) || dirName == ["", ""]
  }

  /** The directory below the output directory that the base name stands for. */
  function OutBase(dirName: PathText): seq<string> {
    if |dirName| == 1 && Plain(dirName[0]) then dirName else []
  }

  /** A top-level file is sent with the directory ".". */
  predicate PlainItem(item: SentItem) {
    match item
    case TopFile(f) => PlainFile(f) && f.relDir == []
    case TopDir(dirName, files) =>
      IsBase(dirName) && forall i | 0 <= i < |files| :: PlainFile(files[i])
  }

  predicate SendingItem(item: SentItem) {
    match item
    case TopFile(f) => IsSending(f)
    case TopDir(_, files) => forall i | 0 <= i < |files| :: IsSending(files[i])
  }

  predicate Regular(items: seq<SentItem>) {
    forall i | 0 <= i < |items| :: PlainItem(items[i]) && SendingItem(items[i])
  }

  /** Directory entries have plain names. */
  predicate NamedNode(node: Node) {
    node.DirNode? ==> NamedEntries(node.entries)
  }

  predicate NamedEntries(entries: seq<Entry>) {
    entries == [] || (Plain(entries[0].name) && NamedNode(entries[0].node) && NamedEntries(entries[1..]))
  }

  predicate PlainFound(f: Found) {
    Plain(f.name) && AllPlain(f.relDir)
  }

  lemma {:induction false} WalkPlain(relDir: seq<string>, entries: seq<Entry>)
    requires AllPlain(relDir) && NamedEntries(entries)
    ensures var w := Walk(relDir, entries);
            w.Some? ==> forall i | 0 <= i < |w.value| :: PlainFound(w.value[i])
    decreases entries
  {
    if entries != [] {
      var e := entries[0];
      WalkPlain(relDir, entries[1..]);
      if e.node.DirNode? {
        WalkPlain(relDir + [e.name], e.node.entries);
      }
    }
  }

  lemma {:induction false} LookupNamed(node: Node, p: AbsPath)
    requires NamedNode(node)
    ensures var r := Lookup(node, p);
            r.Some? ==> NamedNode(r.value) && (p != [] ==> Plain(Last(p)))
    decreases |p|
  {
    if p != [] && node.DirNode? {
      FindNamed(node.entries, p[0]);
      var next := Find(node.entries, p[0]);
      if next.Some? {
        LookupNamed(next.value, p[1..]);
        assert |p| > 1 ==> Last(p[1..]) == Last(p);
      }
    }
  }

  lemma {:induction false} FindNamed(entries: seq<Entry>, name: string)
    requires NamedEntries(entries)
    ensures Find(entries, name).Some? ==> NamedNode(Find(entries, name).value) && Plain(name)
    decreases |entries|
  {
    if entries != [] {
      FindNamed(entries[1..], name);
    }
  }

  predicate NamedDevice(device: Device) {
    device.root.DirNode? && NamedNode(device.root)
  }

  /** No listed directory is spelt with ".." at its end. */
  predicate PlainBases(device: Device, paths: seq<PathText>) {
    forall i | 0 <= i < |paths| :: PlainBase(SourceOf(device, paths[i]))
  }

  predicate PlainBase(source: Source) {
    source.Folder? ==> IsBase(source.dirName)
  }

  /** Whatever the sender sends from a device with plain names is regular. */
  lemma {:induction false} SendsRegular(device: Device, paths: seq<PathText>, items: seq<SentItem>)
    requires NamedDevice(device) && PlainBases(device, paths)
    requires Sends(device, paths, items)
    ensures Regular(items)
    decreases |paths|
  {
    if paths != [] {
      var before, p := paths[..|paths| - 1], paths[|paths| - 1];
      if SourceOf(device, p).Special? {
        SendsRegular(device, before, items);
      } else {
        SendsRegular(device, before, items[..|items| - 1]);
        SourcePlain(device, p, items[|items| - 1]);
        assert items == items[..|items| - 1] + [items[|items| - 1]];
      }
    }
  }

  lemma SourceFound(device: Device, p: PathText)
    requires NamedDevice(device)
    ensures var source := SourceOf(device, p);
            && (source.PlainFile? ==> Plain(source.name))
            && (source.Folder? ==> forall i | 0 <= i < |source.found| :: PlainFound(source.found[i]))
  {
    var target := TargetOf(device, p);
    LookupNamed(device.root, target);
    var node := Lookup(device.root, target);
    if node.Some? && node.value.DirNode? {
      WalkPlain([], node.value.entries);
      assert SourceOf(device, p).Folder? ==> Walk([], node.value.entries) == Some(SourceOf(device, p).found);
    }
  }

  lemma SourcePlain(device: Device, p: PathText, item: SentItem)
    requires NamedDevice(device) && PlainBase(SourceOf(device, p))
    requires Describes(SourceOf(device, p), item)
    ensures PlainItem(item) && SendingItem(item)
  {
    SourceFound(device, p);
    match item {
      case TopFile(f) => assert FoundOf(f).relDir == [] && Plain(FoundOf(f).name);
      case TopDir(_, files) =>
        var found := SourceOf(device, p).found;
        forall i | 0 <= i < |files|
          ensures PlainFile(files[i])
        {
          assert FoundOf(files[i]) == found[i] && PlainFound(found[i]);
        }
    }
  }

  lemma FrameWellFormed(h: Hasher, f: SentFile)
    requires Plain(f.name)
    ensures WellFormedFile(FrameOf(h, f))
    ensures Base(RelPath(HeaderOf(h, FoundOf(f)))) == [f.name]
  {
    var info := HeaderOf(h, FoundOf(f));
    var rooted := RelPath(info).rooted;
    ResolveSnoc(rooted, [], RelText(f.relDir), f.name);
    ChunkNumbers(info, 0, Numbered(f.name, f.parts));
  }

  lemma ItemsWellFormed(h: Hasher, items: seq<SentItem>)
    requires Regular(items)
    ensures WellFormed(ItemsOf(h, items))
  {
    forall i | 0 <= i < |items|
      ensures WellFormedItem(ItemsOf(h, items)[i])
    {
      assert PlainItem(items[i]);
      match items[i] {
        case TopFile(f) => FrameWellFormed(h, f);
        case TopDir(_, files) =>
          forall j | 0 <= j < |files|
            ensures WellFormedFile(FramesOf(h, files)[j])
          {
            FrameWellFormed(h, files[j]);
          }
      }
    }
  }

  // ---- The writes and the list of a session

  function PlacedFiles(dir: AbsPath, files: seq<SentFile>): seq<Placed> {
    seq(|files|, i requires 0 <= i < |files| => Placed(dir, files[i]))
  }

  function PlacedItem(out: AbsPath, item: SentItem): seq<Placed> {
    match item
    case TopFile(f) => [Placed(out, f)]
    case TopDir(dirName, files) => PlacedFiles(out + OutBase(dirName), files)
  }

  function PlacedItems(out: AbsPath, items: seq<SentItem>): seq<Placed> {
    if items == [] then [] else PlacedItem(out, items[0]) + PlacedItems(out, items[1..])
  }

  lemma PlacedOne(out: AbsPath, item: SentItem)
    ensures PlacedItems(out, [item]) == PlacedItem(out, item)
  {
    assert [item][1..] == [];
    assert PlacedItems(out, [item]) == PlacedItem(out, item) + [];
  }

  /** The directories of the list, then its files, each in the order sent. */
  function DirTexts(out: AbsPath, items: seq<SentItem>): seq<PathText> {
    if items == [] then []
    else (if items[0].TopDir? then [Text(out + OutBase(items[0].dirName))] else []) + DirTexts(out, items[1..])
  }

  function FileTexts(out: AbsPath, items: seq<SentItem>): seq<PathText> {
    if items == [] then []
    else (if items[0].TopFile? then [Text(out + [items[0].file.name])] else []) + FileTexts(out, items[1..])
  }

  lemma DirPath(out: AbsPath, dirName: PathText, n: nat)
    requires IsBase(dirName)
    ensures NewOutDir(DirInfoOf(dirName, n), out) == OutDir(0, out + OutBase(dirName), [])
  {
    assert ["."][1..] == [];
    if OutBase(dirName) == dirName {
      ResolvePlain(true, out, dirName);
    } else {
      assert dirName == ["."] || dirName == ["", ""];
      assert ["", ""][1..] == [""] && [""][1..] == [];
      assert Resolve(true, out, ["", ""]) == Resolve(true, out, [""]) == out;
    }
  }

  lemma WritesOfCons(h: Hasher, p: Placed, ps: seq<Placed>)
    ensures WritesOf(h, [p] + ps) == [WriteOf(h, p)] + WritesOf(h, ps)
  {
    WritesOfAppend(h, [p], ps);
    assert WritesOf(h, [p]) == [WriteOf(h, p)];
  }

  lemma PlacedFilesCons(dir: AbsPath, files: seq<SentFile>)
    requires files != []
    ensures PlacedFiles(dir, files) == [Placed(dir, files[0])] + PlacedFiles(dir, files[1..])
  {
  }

  lemma FramesTail(h: Hasher, files: seq<SentFile>)
    requires files != []
    ensures FramesOf(h, files)[1..] == FramesOf(h, files[1..])
  {
    var tail := FramesOf(h, files)[1..];
    forall i | 0 <= i < |tail|
      ensures tail[i] == FramesOf(h, files[1..])[i]
    {
      assert files[1..][i] == files[i + 1];
    }
  }

  lemma {:induction false} FilesWritesOf(h: Hasher, dir: AbsPath, files: seq<SentFile>)
    ensures FilesWrites(dir, FramesOf(h, files)) == WritesOf(h, PlacedFiles(dir, files))
    decreases |files|
  {
    if files != [] {
      FilesWritesOf(h, dir, files[1..]);
      FramesTail(h, files);
      PlacedFilesCons(dir, files);
      WritesOfCons(h, Placed(dir, files[0]), PlacedFiles(dir, files[1..]));
    }
  }

  lemma ItemWritesOf(h: Hasher, out: AbsPath, item: SentItem)
    requires PlainItem(item)
    ensures ItemWrites(out, ItemOf(h, item)) == WritesOf(h, PlacedItem(out, item))
  {
    match item {
      case TopFile(f) =>
      case TopDir(dirName, files) =>
        DirPath(out, dirName, |files|);
        FilesWritesOf(h, out + OutBase(dirName), files);
    }
  }

  lemma ItemsWritesStep(h: Hasher, out: AbsPath, items: seq<SentItem>)
    requires items != []
    ensures ItemsWrites(out, ItemsOf(h, items))
         == ItemWrites(out, ItemOf(h, items[0])) + ItemsWrites(out, ItemsOf(h, items[1..]))
  {
    assert ItemsOf(h, items)[1..] == ItemsOf(h, items[1..]);
  }

  lemma {:induction false} ItemsWritesOf(h: Hasher, out: AbsPath, items: seq<SentItem>)
    requires Regular(items)
    ensures ItemsWrites(out, ItemsOf(h, items)) == WritesOf(h, PlacedItems(out, items))
    decreases |items|
  {
    if items != [] {
      ItemsWritesStep(h, out, items);
      ItemWritesOf(h, out, items[0]);
      ItemsWritesOf(h, out, items[1..]);
      WritesOfAppend(h, PlacedItem(out, items[0]), PlacedItems(out, items[1..]));
    }
  }

  lemma {:induction false} PlacedRegular(out: AbsPath, items: seq<SentItem>)
    requires Regular(items)
    ensures AllUnder(out, PlacedItems(out, items)) && AllSending(PlacedItems(out, items))
    decreases |items|
  {
    if items != [] {
      PlacedRegular(out, items[1..]);
      assert PlainItem(items[0]) && SendingItem(items[0]);
      var a := PlacedItem(out, items[0]);
      assert AllUnder(out, a) && AllSending(a) by {
        if items[0].TopDir? {
          assert (out + OutBase(items[0].dirName))[..|out|] == out;
        } else {
          assert out[..|out|] == out;
        }
      }
    }
  }

  lemma {:induction false} AddFilesCount(dir: OutDir, files: seq<FileFrame>)
    ensures AddFiles(dir, files).fileCnt == dir.fileCnt + |files| && AddFiles(dir, files).path == dir.path
    decreases |files|
  {
    if files != [] {
      AddFilesCount(AddFile(dir, files[0]), files[1..]);
    }
  }

  /** What the receiver reports of the items: both halves of the list, and the file count. */
  datatype Summary = Summary(dirs: seq<PathText>, files: seq<PathText>, fileCnt: nat)

  function SummaryOf(got: Items): Summary {
    Summary(DirList(got.dirs), FileList(got.files), ReceivedFileCnt(got))
  }

  function Plus(out: AbsPath, s: Summary, items: seq<SentItem>): Summary {
    Summary(s.dirs + DirTexts(out, items), s.files + FileTexts(out, items), s.fileCnt + FileCount(items))
  }

  lemma TextsOfOne(out: AbsPath, item: SentItem)
    ensures DirTexts(out, [item]) == if item.TopDir? then [Text(out + OutBase(item.dirName))] else []
    ensures FileTexts(out, [item]) == if item.TopFile? then [Text(out + [item.file.name])] else []
    ensures FileCount([item]) == if item.TopDir? then |item.files| else 1
  {
    assert [item][1..] == [];
  }

  lemma TextsCons(out: AbsPath, items: seq<SentItem>)
    requires items != []
    ensures DirTexts(out, items) == DirTexts(out, [items[0]]) + DirTexts(out, items[1..])
    ensures FileTexts(out, items) == FileTexts(out, [items[0]]) + FileTexts(out, items[1..])
    ensures FileCount(items) == FileCount([items[0]]) + FileCount(items[1..])
  {
    TextsOfOne(out, items[0]);
  }

  lemma PlusCons(out: AbsPath, s: Summary, items: seq<SentItem>)
    requires items != []
    ensures Plus(out, Plus(out, s, [items[0]]), items[1..]) == Plus(out, s, items)
  {
    TextsCons(out, items);
    Reassociate(s.dirs, DirTexts(out, [items[0]]), DirTexts(out, items[1..]));
    Reassociate(s.files, FileTexts(out, [items[0]]), FileTexts(out, items[1..]));
  }

  lemma AddDir(h: Hasher, out: AbsPath, item: SentItem, got: Items)
    requires item.TopDir? && PlainItem(item)
    ensures var after := Add(got, out, ItemOf(h, item));
            && after.files == got.files
            && DirList(after.dirs) == DirList(got.dirs) + [Text(out + OutBase(item.dirName))]
            && DirFileCnt(after.dirs) == DirFileCnt(got.dirs) + |item.files|
  {
    var start := OutDir(0, out + OutBase(item.dirName), []);
    DirPath(out, item.dirName, |item.files|);
    AddFilesCount(start, FramesOf(h, item.files));
    var dir := AddFiles(start, FramesOf(h, item.files));
    assert (got.dirs + [dir])[..|got.dirs|] == got.dirs;
  }

  lemma AddTopFile(h: Hasher, out: AbsPath, item: SentItem, got: Items)
    requires item.TopFile? && PlainItem(item)
    ensures var after := Add(got, out, ItemOf(h, item));
            && after.dirs == got.dirs
            && FileList(after.files) == FileList(got.files) + [Text(out + [item.file.name])]
            && |after.files| == |got.files| + 1
  {
    var info := HeaderOf(h, FoundOf(item.file));
    FlatPaths(out, item.file.name, info);
    var o := OutFile(ReportedPath(info, out));
    assert (got.files + [o])[..|got.files|] == got.files;
  }

  lemma AddOne(h: Hasher, out: AbsPath, item: SentItem, got: Items)
    requires PlainItem(item)
    ensures SummaryOf(Add(got, out, ItemOf(h, item))) == Plus(out, SummaryOf(got), [item])
  {
    TextsOfOne(out, item);
    if item.TopDir? {
      AddDir(h, out, item, got);
      assert FileList(got.files) + [] == FileList(got.files);
    } else {
      AddTopFile(h, out, item, got);
      assert DirList(got.dirs) + [] == DirList(got.dirs);
    }
  }

  lemma AddAllStep(h: Hasher, out: AbsPath, items: seq<SentItem>, got: Items)
    requires items != []
    ensures AddAll(got, out, ItemsOf(h, items))
         == AddAll(Add(got, out, ItemOf(h, items[0])), out, ItemsOf(h, items[1..]))
  {
    assert ItemsOf(h, items)[1..] == ItemsOf(h, items[1..]);
  }

  /** The list and the count the receiver ends with. */
  lemma {:induction false} ReceivedAll(h: Hasher, out: AbsPath, items: seq<SentItem>, got: Items)
    requires Regular(items)
    ensures SummaryOf(AddAll(got, out, ItemsOf(h, items))) == Plus(out, SummaryOf(got), items)
    decreases |items|
  {
    if items != [] {
      var next := Add(got, out, ItemOf(h, items[0]));
      AddAllStep(h, out, items, got);
      assert SummaryOf(next) == Plus(out, SummaryOf(got), [items[0]]) by {
        AddOne(h, out, items[0], got);
      }
      ReceivedAll(h, out, items[1..], next);
      PlusCons(out, SummaryOf(got), items);
    }
  }

  lemma NothingPlus(out: AbsPath, items: seq<SentItem>)
    ensures Plus(out, SummaryOf(Items([], [])), items)
         == Summary(DirTexts(out, items), FileTexts(out, items), FileCount(items))
  {
    Reassociate([], [], DirTexts(out, items));
    Reassociate([], [], FileTexts(out, items));
    assert SummaryOf(Items([], [])) == Summary([], [], 0);
  }

  lemma FinalList(h: Hasher, dataDir: AbsPath, k: SendKanban, items: seq<SentItem>)
    requires Regular(items)
    ensures var got := Received(dataDir, k, ItemsOf(h, items));
            var out := ServiceDir(dataDir, k);
            List(got) == DirTexts(out, items) + FileTexts(out, items) && ReceivedFileCnt(got) == FileCount(items)
  {
    var got := Received(dataDir, k, ItemsOf(h, items));
    var out := ServiceDir(dataDir, k);
    ReceivedAll(h, out, items, Items([], []));
    NothingPlus(out, items);
  }

  // ---- Round trip

  /** The output directory is fresh once the receiver has tried to create it. */
  ghost predicate FreshFor(dataDir: AbsPath, k: SendKanban, fs: FS) {
    Fresh(MakeDir(fs, ServiceDir(dataDir, k)), ServiceDir(dataDir, k))
  }

  /** Nothing lies below a path that does not exist. */
  lemma NothingBelow(fs: FS, out: AbsPath, p: AbsPath)
    requires fs.Valid() && out !in fs.dirs && out !in fs.files && (p in fs.dirs || p in fs.files)
    ensures |p| <= |out| || p[..|out|] != out
  {
    if |p| > |out| {
      var d := if p in fs.dirs then p else Drop(p);
      AncestorsInDirs(fs, d);
      assert p[..|out|] == d[..|out|];
      assert d[..|out|] in Ancestors(d);
    }
  }

  lemma NoFileAbove(fs: FS, dir: AbsPath, i: nat)
    requires fs.Valid() && dir in fs.dirs && i <= |dir|
    ensures dir[..i] !in fs.files
  {
    AncestorsInDirs(fs, dir);
    assert dir[..i] in Ancestors(dir);
  }

  /** A new directory is fresh. */
  lemma NewDirIsFresh(fs: FS, out: AbsPath)
    requires fs.Valid() && out != [] && Drop(out) in fs.dirs && out !in fs.dirs && out !in fs.files
    ensures Fresh(MakeDir(fs, out), out) && out in MakeDir(fs, out).dirs
  {
    forall p | p in fs.dirs || p in fs.files
      ensures |p| <= |out| || p[..|out|] != out
    {
      NothingBelow(fs, out, p);
    }
    forall i | 0 <= i <= |out|
      ensures out[..i] !in fs.files
    {
      if i < |out| {
        NoFileAbove(fs, Drop(out), i);
        assert out[..i] == Drop(out)[..i];
      } else {
        assert out[..i] == out;
      }
    }
  }

  /** It is when the data directory exists and nothing of the service's directory does. */
  lemma NewServiceIsFresh(dataDir: AbsPath, k: SendKanban, fs: FS)
    requires fs.Valid() && dataDir in fs.dirs && |k.nextService| == 1
    requires ServiceDir(dataDir, k) !in fs.dirs && ServiceDir(dataDir, k) !in fs.files
    ensures FreshFor(dataDir, k, fs) && ServiceDir(dataDir, k) in MakeDir(fs, ServiceDir(dataDir, k)).dirs
  {
    ServiceDirBelow(dataDir, k);
    NewDirIsFresh(fs, ServiceDir(dataDir, k));
  }

  /** The service and the number that the name of a service's directory stands for. */
  function InstanceOf(name: string): Option<(string, int)> {
    Decimal.NumberedOf(name, '_')
  }

  /**
   The name of the output directory reads back to exactly the service and the number the kanban is addressed to. It lies
   right below the data directory when the service's name has no slashes, else where the pieces before the last lead.
   */
  lemma ServiceDirBelow(dataDir: AbsPath, k: SendKanban)
    requires k.nextService != []
    ensures var out := ServiceDir(dataDir, k);
            && out != [] && Drop(out) == Join(dataDir, Drop(k.nextService)) && Plain(Last(out))
            && InstanceOf(Last(out)) == Some((Last(k.nextService), k.nextNumber))
  {
    var service := Last(k.nextService);
    var name := service + "_" + Decimal.Itoa(k.nextNumber);
    assert name[|service|] == '_';
    ResolveSnoc(true, dataDir, Drop(k.nextService), name);
    Decimal.ParseItoa(k.nextNumber);
    Decimal.NumberedRoundTrip(service, '_', Decimal.Itoa(k.nextNumber));
  }

  /** Two kanbans share a directory exactly when they are addressed to the same number of the same service. */
  lemma SameServiceDir(dataDir: AbsPath, k: SendKanban, k': SendKanban)
    requires |k.nextService| == 1 && |k'.nextService| == 1
    ensures ServiceDir(dataDir, k) == ServiceDir(dataDir, k') <==> k.nextService == k'.nextService && k.nextNumber == k'.nextNumber
  {
    ServiceDirBelow(dataDir, k);
    ServiceDirBelow(dataDir, k');
  }

  function PlacedSession(dataDir: AbsPath, k: SendKanban, items: seq<SentItem>): seq<Placed> {
    PlacedItems(ServiceDir(dataDir, k), items)
  }

  /** What the session does on disk: all of it exactly when it is storable. */
  lemma SessionEffect(h: Hasher, dataDir: AbsPath, k: SendKanban, items: seq<SentItem>, fs: FS)
    requires Regular(items) && FreshFor(dataDir, k, fs)
    ensures var a := Effect(h, dataDir, k, ItemsOf(h, items), fs);
            var ps := PlacedSession(dataDir, k, items);
            && (a.ok <==> Storable(ps))
            && (a.ok ==> a.fs == After(ps, MakeDir(fs, ServiceDir(dataDir, k))))
  {
    var out := ServiceDir(dataDir, k);
    ItemsWritesOf(h, out, items);
    PlacedRegular(out, items);
    StoredExactly(h, out, PlacedItems(out, items), MakeDir(fs, out));
  }

  lemma ParseEos(h: Hasher, want: nat, out: AbsPath, got: Items, rest: seq<Message>, fs: FS)
    ensures ParseItems(h, want, out, got, [EosMsg(ReceivedFileCnt(got))] + rest, fs) == Parsed(Some(WithList(List(got))), rest, fs)
  {
    assert ([EosMsg(ReceivedFileCnt(got))] + rest)[1..] == rest;
  }

  /** Well-formed items and an EOS with their count. */
  lemma EosAccepted(h: Hasher, dataDir: AbsPath, k: SendKanban, frames: seq<ItemFrame>, cnt: nat, rest: seq<Message>, fs: FS)
    requires WellFormed(frames) && cnt == ReceivedFileCnt(Received(dataDir, k, frames))
    ensures var a := Effect(h, dataDir, k, frames, fs);
            var s := ParseSession(h, dataDir, SessionMsgs(k, frames, [EosMsg(cnt)] + rest), fs);
            if a.ok then s == Session(true, Some(WithFileList(k, List(Received(dataDir, k, frames)))), rest, a.fs) else !s.ok
  {
    var a := Effect(h, dataDir, k, frames, fs);
    ParseHead(h, dataDir, k, frames, [EosMsg(cnt)] + rest, fs);
    ParseEos(h, |k.afterKanban.fileList|, ServiceDir(dataDir, k), Received(dataDir, k, frames), rest, a.fs);
  }

  /**
   For every file list the sender gets through, every content and every short-read pattern, the receiver answers OK
   exactly when the files are storable: every directory is flat and no file takes the place of a needed directory.
   It then has consumed the session and nothing more, stored exactly the sent contents, and rewritten the file list
   to the output paths, directories first.
   */
  lemma RoundTrip(h: Hasher, dataDir: AbsPath, k: SendKanban, items: seq<SentItem>, rest: seq<Message>, fs: FS)
    requires Regular(items) && FreshFor(dataDir, k, fs)
    ensures var out := ServiceDir(dataDir, k);
            var ps := PlacedSession(dataDir, k, items);
            var s := ParseSession(h, dataDir, SessionMsgs(k, ItemsOf(h, items), [EosMsg(FileCount(items))] + rest), fs);
            && (s.ok <==> Storable(ps))
            && (s.ok ==>
                  s == Session(true, Some(WithFileList(k, DirTexts(out, items) + FileTexts(out, items))), rest,
                               After(ps, MakeDir(fs, out))))
  {
    ItemsWellFormed(h, items);
    SessionEffect(h, dataDir, k, items, fs);
    FinalList(h, dataDir, k, items);
    EosAccepted(h, dataDir, k, ItemsOf(h, items), FileCount(items), rest, fs);
  }

  /** The path lies below the directory of that number of that service. */
  ghost predicate BelowInstance(dataDir: AbsPath, service: PathText, number: int, path: AbsPath)
    requires service != []
  {
    exists name :: InstanceOf(name) == Some((Last(service), number)) && Join(dataDir, Drop(service)) + [name] < path
  }

  lemma PlacedBelow(dataDir: AbsPath, k: SendKanban, items: seq<SentItem>, i: nat)
    requires Regular(items) && i < |PlacedSession(dataDir, k, items)| && k.nextService != []
    ensures BelowInstance(dataDir, k.nextService, k.nextNumber, PathOf(PlacedSession(dataDir, k, items)[i]))
  {
    var out := ServiceDir(dataDir, k);
    ServiceDirBelow(dataDir, k);
    PlacedRegular(out, items);
    DropLast(out);
    assert PlacedUnder(out, PlacedSession(dataDir, k, items)[i]);
    assert InstanceOf(Last(out)) == Some((Last(k.nextService), k.nextNumber));
  }

  /** A file whose output path no other file of the session has arrives byte for byte, below the addressed instance's directory. */
  lemma EveryFileArrives(h: Hasher, dataDir: AbsPath, k: SendKanban, items: seq<SentItem>, fs: FS, i: nat)
    requires Regular(items) && FreshFor(dataDir, k, fs)
    requires Storable(PlacedSession(dataDir, k, items)) && i < |PlacedSession(dataDir, k, items)|
    requires forall j | 0 <= j < |PlacedSession(dataDir, k, items)| && j != i ::
               PathOf(PlacedSession(dataDir, k, items)[j]) != PathOf(PlacedSession(dataDir, k, items)[i])
    ensures var p := PlacedSession(dataDir, k, items)[i];
            var s := ParseSession(h, dataDir, SessionMsgs(k, ItemsOf(h, items), [EosMsg(FileCount(items))]), fs);
            s.ok && PathOf(p) in s.fs.files && s.fs.files[PathOf(p)] == p.file.content
    ensures k.nextService != [] ==>
              BelowInstance(dataDir, k.nextService, k.nextNumber, PathOf(PlacedSession(dataDir, k, items)[i]))
  {
    var ps := PlacedSession(dataDir, k, items);
    RoundTrip(h, dataDir, k, items, [], fs);
    assert [EosMsg(FileCount(items))] + [] == [EosMsg(FileCount(items))];
    LastWriteWins(ps, MakeDir(fs, ServiceDir(dataDir, k)), i);
    if k.nextService != [] {
      PlacedBelow(dataDir, k, items, i);
    }
  }

  /**
   Directories with subdirectories are meant to arrive as well, but do not: a file in a subdirectory is written below
   a directory that was never made, and the whole session fails. For instance:
   */
  lemma NestedRejected(h: Hasher, dataDir: AbsPath, k: SendKanban, fs: FS)
    requires FreshFor(dataDir, k, fs)
    ensures var items := [TopDir(["photos"], [SentFile(["may"], "a.png", [], [])])];
            Regular(items) && !ParseSession(h, dataDir, SessionMsgs(k, ItemsOf(h, items), [EosMsg(1)]), fs).ok
  {
    var file := SentFile(["may"], "a.png", [], []);
    var items := [TopDir(["photos"], [file])];
    NestedRegular(items[0], file);
    RoundTrip(h, dataDir, k, items, [], fs);
    NestedPlaced(ServiceDir(dataDir, k), items[0], file);
    assert [EosMsg(1)] + [] == [EosMsg(1)];
  }

  lemma NestedPlaced(out: AbsPath, item: SentItem, file: SentFile)
    requires file == SentFile(["may"], "a.png", [], []) && item == TopDir(["photos"], [file])
    ensures !Storable(PlacedItems(out, [item]))
  {
    assert PlacedItems(out, [item])[0] == Placed(out + ["photos"], file);
  }

  lemma NestedRegular(item: SentItem, file: SentFile)
    requires file == SentFile(["may"], "a.png", [], []) && item == TopDir(["photos"], [file])
    ensures Regular([item]) && FileCount([item]) == 1
  {
    assert PlainItem(item);
    assert SendingItem(item);
    assert [item][1..] == [];
  }

  // ---- Any sender

  lemma Halves(ms: seq<Message>, m: nat)
    requires m <= |ms|
    ensures ms == ms[..m] + ms[m..]
  {
  }

  /** An accepted stream is not accepted when it is cut before its end. */
  lemma NoProperPrefixAccepted(h: Hasher, dataDir: AbsPath, ms: seq<Message>, fs: FS, m: nat)
    requires ParseSession(h, dataDir, ms, fs).ok
    requires m < |ms| - |ParseSession(h, dataDir, ms, fs).rest|
    ensures !ParseSession(h, dataDir, ms[..m], fs).ok
  {
    var cut := ParseSession(h, dataDir, ms[..m], fs);
    if cut.ok {
      var k, items, end := SessionSound(h, dataDir, ms[..m], fs);
      SessionMsgsAppend(k, items, [end] + cut.rest, ms[m..]);
      Halves(ms, m);
      Reassociate([end], cut.rest, ms[m..]);
      SessionsAccepted(h, dataDir, k, items, end, cut.rest + ms[m..], ms, fs);
    }
  }

  // ---- Counts

  lemma {:induction false} ConcatSize(parts: seq<Bytes>)
    requires forall i | 0 <= i < |parts| :: 0 < |parts[i]| <= CHUNK_SIZE
    ensures |parts| <= |Concat(parts)| <= |parts| * CHUNK_SIZE
    ensures (forall i | 0 <= i < |parts| - 1 :: |parts[i]| == CHUNK_SIZE) && parts != []
            ==> (|parts| - 1) * CHUNK_SIZE < |Concat(parts)|
    decreases |parts|
  {
    if parts != [] {
      ConcatSize(parts[1..]);
    }
  }

  lemma FrameBytes(h: Hasher, f: SentFile)
    requires IsSending(f)
    ensures Payload(FrameOf(h, f).chunks) == f.content
  {
    PayloadOfNumbered(f.parts, FrameOf(h, f).chunks);
  }

  /**
   What header and trailer announce of a whole file. Size and hash are those of the bytes in the chunks. The trailer's count
   is that of the chunks sent; the header's is the number of full 128 KiB blocks, at most as many as are sent, and at most
   one short of it when reads are full.
   */
  lemma FrameAnnounces(h: Hasher, f: SentFile)
    requires IsSending(f)
    ensures var frame := FrameOf(h, f);
            var bytes, n := Payload(frame.chunks), |frame.chunks|;
            && bytes == f.content
            && frame.info.size == frame.eof.size == |bytes| && frame.info.hash == frame.eof.hash == h(bytes)
            && frame.eof.chunkCnt == Int32(n) && frame.info.chunkCnt == Int32(|bytes| / 131072)
            && (|bytes| < 0x1_0000_0000_0000 ==> frame.info.chunkCnt == |bytes| / 131072)
            && |bytes| / 131072 <= n
            && ((forall i | 0 <= i < n - 1 :: |frame.chunks[i].context| == 131072) ==> n <= |bytes| / 131072 + 1)
  {
    FrameBytes(h, f);
    ConcatSize(f.parts);
    var chunks := FrameOf(h, f).chunks;
    assert forall i | 0 <= i < |f.parts| :: chunks[i].context == f.parts[i];
  }

  /** A directory's opening message announces the name and the number of files that follow, and its end repeats it. */
  lemma DirAnnounces(h: Hasher, dirName: PathText, files: seq<SentFile>)
    ensures var item := ItemOf(h, TopDir(dirName, files));
            && item.DirItem? && item.closing == DirBody(item.dir)
            && item.dir.dirName == dirName && item.dir.fileCnt == |item.files| == |files|
            && forall i | 0 <= i < |files| :: item.files[i] == FrameOf(h, files[i])
  {
  }
}
