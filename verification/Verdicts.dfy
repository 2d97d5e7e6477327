/**
 What the receiver answers to every run of the client: complete, aborted or panicking, with any of the last messages lost.
 Main results: `DeliveryVerdict` and `LeavesWholeFiles`.
 */
module Verdicts {
  import opened Basics
  import opened Paths
  import opened FileStore
  import opened Kanbans
  import opened Messages
  import opened Receiver
  import opened Language
  import opened Sender
  import opened Storage
  import opened Transfer

  // ---- A send that stops early

  predicate PlainTorn(t: Torn) {
    match t
    case TornNone => true
    case TornTop(f) => Plain(f.found.name)
    case TornDir(_, _, files, last) =>
      && (forall i | 0 <= i < |files| :: Plain(files[i].name))
      && (last.Some? ==> Plain(last.value.found.name))
  }

  lemma TornPlain(device: Device, p: PathText, t: Torn)
    requires NamedDevice(device) && TornFrom(SourceOf(device, p), t)
    ensures PlainTorn(t)
  {
    SourceFound(device, p);
    if t.TornDir? {
      var found := SourceOf(device, p).found;
      forall i | 0 <= i < |t.files|
        ensures Plain(t.files[i].name)
      {
        assert FoundOf(t.files[i]) == found[i] && PlainFound(found[i]);
      }
    }
  }

  /** The stream ends, or goes on with the failure notice or EOS. */
  predicate StopsWith(tail: seq<Message>) {
    tail == [] || tail[0].code == SendingFileFailed || tail[0].code == Eos
  }

  lemma ParseTornFile(h: Hasher, t: TornFile, out: AbsPath, tail: seq<Message>, fs: FS)
    requires Plain(t.found.name) && StopsWith(tail)
    ensures TornFileMsgs(h, t, tail)[0] == Message(SendingFileInfo, FileBody(HeaderOf(h, t.found)))
    ensures var p := ParseFile(h, HeaderOf(h, t.found), out, [], 0, TornFileMsgs(h, t, tail)[1..], fs);
            p.out.None? && p.fs == fs
  {
    var sent := SentFile(t.found.relDir, t.found.name, t.found.content, t.parts);
    assert FoundOf(sent) == t.found;
    FrameWellFormed(h, sent);
    var _ := ParseChunks(h, HeaderOf(h, t.found), out, [], 0, Numbered(t.found.name, t.parts), tail, fs);
  }

  lemma ParseTornLast(h: Hasher, dir: OutDir, last: Option<TornFile>, tail: seq<Message>, fs: FS)
    requires StopsWith(tail) && (last.Some? ==> Plain(last.value.found.name))
    ensures ParseDir(h, dir, TornLastMsgs(h, last, tail), fs).out.None?
    ensures ParseDir(h, dir, TornLastMsgs(h, last, tail), fs).fs == fs
  {
    if last.Some? {
      ParseTornFile(h, last.value, dir.path, tail, fs);
    }
  }

  lemma ParseTornDir(h: Hasher, dir: OutDir, files: seq<SentFile>, last: Option<TornFile>, tail: seq<Message>, fs: FS)
    requires StopsWith(tail) && (last.Some? ==> Plain(last.value.found.name))
    requires forall i | 0 <= i < |files| :: Plain(files[i].name)
    ensures var p := ParseDir(h, dir, FilesMsgs(FramesOf(h, files), TornLastMsgs(h, last, tail)), fs);
            p.out.None? && p.fs == ApplyWrites(h, FilesWrites(dir.path, FramesOf(h, files)), fs).fs
  {
    var frames := FramesOf(h, files);
    forall i | 0 <= i < |frames|
      ensures WellFormedFile(frames[i])
    {
      FrameWellFormed(h, files[i]);
    }
    ParseFrames(h, dir, frames, TornLastMsgs(h, last, tail), fs);
    ParseTornLast(h, AddFiles(dir, frames), last, tail, ApplyWrites(h, FilesWrites(dir.path, frames), fs).fs);
  }

  lemma ParseTornTop(h: Hasher, want: nat, out: AbsPath, got: Items, f: TornFile, tail: seq<Message>, fs: FS)
    requires Plain(f.found.name) && StopsWith(tail)
    ensures ParseItems(h, want, out, got, TornFileMsgs(h, f, tail), fs).out.None?
    ensures ParseItems(h, want, out, got, TornFileMsgs(h, f, tail), fs).fs == fs
  {
    ParseTornFile(h, f, out, tail, fs);
  }

  lemma DirFails(h: Hasher, want: nat, out: AbsPath, got: Items, ms: seq<Message>, dir: DirInfo, fs: FS)
    requires ms != [] && ms[0] == Message(SendingDirInfo, DirBody(dir)) && dir.fileCnt >= 0
    requires ParseDir(h, NewOutDir(dir, out), ms[1..], fs).out.None?
    ensures var p := ParseItems(h, want, out, got, ms, fs);
            p.out.None? && p.fs == ParseDir(h, NewOutDir(dir, out), ms[1..], fs).fs
  {
  }

  lemma ParseTornFolder(h: Hasher, want: nat, out: AbsPath, got: Items, dirName: PathText, fileCnt: nat,
                        files: seq<SentFile>, last: Option<TornFile>, tail: seq<Message>, fs: FS)
    requires StopsWith(tail) && PlainTorn(TornDir(dirName, fileCnt, files, last))
    ensures var p := ParseItems(h, want, out, got, TornMsgs(h, TornDir(dirName, fileCnt, files, last), tail), fs);
            var dir := NewOutDir(DirInfoOf(dirName, fileCnt), out).path;
            p.out.None? && p.fs == ApplyWrites(h, FilesWrites(dir, FramesOf(h, files)), fs).fs
  {
    var ms := TornMsgs(h, TornDir(dirName, fileCnt, files, last), tail);
    var inside := FilesMsgs(FramesOf(h, files), TornLastMsgs(h, last, tail));
    var dir := NewOutDir(DirInfoOf(dirName, fileCnt), out);
    var d := ParseDir(h, dir, inside, fs);
    assert d.out.None? && d.fs == ApplyWrites(h, FilesWrites(dir.path, FramesOf(h, files)), fs).fs by {
      ParseTornDir(h, dir, files, last, tail, fs);
    }
    assert ms[0] == Message(SendingDirInfo, DirBody(DirInfoOf(dirName, fileCnt))) && ms[1..] == inside;
    DirFails(h, want, out, got, ms, DirInfoOf(dirName, fileCnt), fs);
  }

  /** The writes of a directory cut short: of its whole files. */
  function TornWrites(h: Hasher, out: AbsPath, t: Torn): seq<Write> {
    match t
    case TornDir(dirName, fileCnt, files, _) =>
      FilesWrites(NewOutDir(DirInfoOf(dirName, fileCnt), out).path, FramesOf(h, files))
    case _ => []
  }

  /** An item cut short is rejected, whatever ends the stream; its whole files stay. */
  lemma ParseTorn(h: Hasher, want: nat, out: AbsPath, got: Items, t: Torn, tail: seq<Message>, fs: FS)
    requires PlainTorn(t) && !t.TornNone? && StopsWith(tail)
    ensures ParseItems(h, want, out, got, TornMsgs(h, t, tail), fs).out.None?
    ensures ParseItems(h, want, out, got, TornMsgs(h, t, tail), fs).fs == ApplyWrites(h, TornWrites(h, out, t), fs).fs
  {
    match t {
      case TornTop(f) => ParseTornTop(h, want, out, got, f, tail, fs);
      case TornDir(dirName, fileCnt, files, last) =>
        ParseTornFolder(h, want, out, got, dirName, fileCnt, files, last, tail, fs);
    }
  }

  lemma {:induction false} SendsCount(device: Device, paths: seq<PathText>, items: seq<SentItem>)
    requires Sends(device, paths, items)
    ensures |items| <= |paths|
    decreases |paths|
  {
    if paths != [] {
      var before := paths[..|paths| - 1];
      if SourceOf(device, paths[|paths| - 1]).Special? {
        SendsCount(device, before, items);
      } else {
        SendsCount(device, before, items[..|items| - 1]);
      }
    }
  }

  lemma {:induction false} TextsCount(out: AbsPath, items: seq<SentItem>)
    ensures |DirTexts(out, items)| + |FileTexts(out, items)| == |items|
    decreases |items|
  {
    if items != [] {
      TextsCount(out, items[1..]);
    }
  }

  /** The receiver's answer at the top level, to the first message after whole items. */
  predicate EndsWell(k: SendKanban, items: seq<SentItem>, tail: seq<Message>)
    requires StopsWith(tail)
  {
    && tail != []
    && if tail[0].code == Eos
       then tail[0].body.StreamBody? && tail[0].body.fileCount == Int32(FileCount(items))
       else |items| == |k.afterKanban.fileList|
  }

  lemma StoppedInside(h: Hasher, dataDir: AbsPath, k: SendKanban, items: seq<SentItem>, t: Torn, tail: seq<Message>, fs: FS)
    requires Regular(items) && PlainTorn(t) && StopsWith(tail) && !t.TornNone?
    ensures !ParseSession(h, dataDir, SessionMsgs(k, ItemsOf(h, items), TornMsgs(h, t, tail)), fs).ok
  {
    var frames := ItemsOf(h, items);
    var got := Received(dataDir, k, frames);
    ItemsWellFormed(h, items);
    ParseHead(h, dataDir, k, frames, TornMsgs(h, t, tail), fs);
    ParseTorn(h, |k.afterKanban.fileList|, ServiceDir(dataDir, k), got, t, tail, Effect(h, dataDir, k, frames, fs).fs);
  }

  lemma ParseTail(h: Hasher, dataDir: AbsPath, k: SendKanban, items: seq<SentItem>, tail: seq<Message>, fs: FS)
    requires Regular(items) && StopsWith(tail)
    ensures var got := Received(dataDir, k, ItemsOf(h, items));
            var p := ParseItems(h, |k.afterKanban.fileList|, ServiceDir(dataDir, k), got, tail, fs);
            p.out.Some? <==> EndsWell(k, items, tail)
  {
    FinalList(h, dataDir, k, items);
    TextsCount(ServiceDir(dataDir, k), items);
  }

  lemma StoppedBetween(h: Hasher, dataDir: AbsPath, k: SendKanban, items: seq<SentItem>, tail: seq<Message>, fs: FS)
    requires Regular(items) && FreshFor(dataDir, k, fs) && StopsWith(tail)
    ensures ParseSession(h, dataDir, SessionMsgs(k, ItemsOf(h, items), tail), fs).ok
       <==> Storable(PlacedSession(dataDir, k, items)) && EndsWell(k, items, tail)
  {
    var frames := ItemsOf(h, items);
    ItemsWellFormed(h, items);
    ParseHead(h, dataDir, k, frames, tail, fs);
    SessionEffect(h, dataDir, k, items, fs);
    ParseTail(h, dataDir, k, items, tail, Effect(h, dataDir, k, frames, fs).fs);
  }

  /** How the receiver judges items followed by a cut-short item and a tail. */
  lemma StoppedAt(h: Hasher, dataDir: AbsPath, k: SendKanban, items: seq<SentItem>, t: Torn, tail: seq<Message>, fs: FS)
    requires Regular(items) && FreshFor(dataDir, k, fs) && PlainTorn(t) && StopsWith(tail)
    ensures ParseSession(h, dataDir, SessionMsgs(k, ItemsOf(h, items), TornMsgs(h, t, tail)), fs).ok
       <==> Storable(PlacedSession(dataDir, k, items)) && t.TornNone? && EndsWell(k, items, tail)
  {
    if t.TornNone? {
      StoppedBetween(h, dataDir, k, items, tail, fs);
    } else {
      StoppedInside(h, dataDir, k, items, t, tail, fs);
    }
  }

  lemma Int32IsMinusOne(n: nat)
    ensures Int32(n) == -1 <==> n % 0x1_0000_0000 == 0xffff_ffff
  {
  }

  lemma Int32IsZero(n: nat)
    ensures Int32(n) == 0 <==> n % 0x1_0000_0000 == 0
  {
  }

  lemma AbortEnds(k: SendKanban, items: seq<SentItem>, failedSent: bool, eosSent: bool)
    requires |items| < |k.afterKanban.fileList|
    ensures StopsWith(AbortTail(failedSent, eosSent))
    ensures EndsWell(k, items, AbortTail(failedSent, eosSent))
       <==> !failedSent && eosSent && FileCount(items) % 0x1_0000_0000 == 0xffff_ffff
  {
    assert Int32(-1) == -1;
    Int32IsMinusOne(FileCount(items));
  }

  /** A send that stops early, whatever of the failure notice and the EOS with count -1 gets through. */
  lemma AbortedExactly(h: Hasher, dataDir: AbsPath, device: Device, k: SendKanban, d: Delivery, fs: FS)
    requires d.Aborted? && DeliveryOf(device, k, d)
    requires Regular(d.items) && FreshFor(dataDir, k, fs) && PlainTorn(d.torn)
    ensures ParseSession(h, dataDir, DeliveryMsgs(h, k, d), fs).ok <==> ReadsAsMinusOne(dataDir, k, d)
  {
    SendsCount(device, k.afterKanban.fileList[..d.at], d.items);
    AbortEnds(k, d.items, d.failedSent, d.eosSent);
    StoppedAt(h, dataDir, k, d.items, d.torn, AbortTail(d.failedSent, d.eosSent), fs);
  }

  /** The one way an aborted run is taken for a complete one: 2^32 - 1 files went through and only EOS(-1) follows. */
  predicate ReadsAsMinusOne(dataDir: AbsPath, k: SendKanban, d: Delivery)
    requires d.Aborted?
  {
    && Storable(PlacedSession(dataDir, k, d.items)) && d.torn.TornNone?
    && !d.failedSent && d.eosSent && FileCount(d.items) % 0x1_0000_0000 == 0xffff_ffff
  }

  lemma CompleteVerdict(h: Hasher, dataDir: AbsPath, k: SendKanban, items: seq<SentItem>, eosSent: bool, fs: FS)
    requires Regular(items) && FreshFor(dataDir, k, fs)
    ensures ParseSession(h, dataDir, DeliveryMsgs(h, k, Complete(items, eosSent)), fs).ok
       <==> eosSent && Storable(PlacedSession(dataDir, k, items))
  {
    StoppedBetween(h, dataDir, k, items, EosTail(FileCount(items), eosSent), fs);
  }

  /** A panic between items is taken for a complete run when the files sent so far read as 0. */
  predicate ReadsAsZero(dataDir: AbsPath, k: SendKanban, d: Delivery)
    requires d.Panicked?
  {
    && Storable(PlacedSession(dataDir, k, d.items)) && d.torn.TornNone?
    && d.eosSent && FileCount(d.items) % 0x1_0000_0000 == 0
  }

  lemma PanicEnds(k: SendKanban, items: seq<SentItem>, eosSent: bool)
    ensures StopsWith(EosTail(0, eosSent))
    ensures EndsWell(k, items, EosTail(0, eosSent)) <==> eosSent && FileCount(items) % 0x1_0000_0000 == 0
  {
    assert Int32(0) == 0;
    Int32IsZero(FileCount(items));
  }

  lemma PanicVerdict(h: Hasher, dataDir: AbsPath, k: SendKanban, items: seq<SentItem>, t: Torn, eosSent: bool, fs: FS)
    requires Regular(items) && FreshFor(dataDir, k, fs) && PlainTorn(t)
    ensures ParseSession(h, dataDir, SessionMsgs(k, ItemsOf(h, items), TornMsgs(h, t, EosTail(0, eosSent))), fs).ok
       <==> && Storable(PlacedSession(dataDir, k, items)) && t.TornNone?
            && eosSent && FileCount(items) % 0x1_0000_0000 == 0
  {
    PanicEnds(k, items, eosSent);
    StoppedAt(h, dataDir, k, items, t, EosTail(0, eosSent), fs);
  }

  /** A panic while sending files skips the failure notice, and the deferred EOS still announces 0 files. */
  lemma PanickedExactly(h: Hasher, dataDir: AbsPath, k: SendKanban, d: Delivery, fs: FS)
    requires d.Panicked? && Regular(d.items) && FreshFor(dataDir, k, fs) && PlainTorn(d.torn)
    ensures ParseSession(h, dataDir, DeliveryMsgs(h, k, d), fs).ok <==> ReadsAsZero(dataDir, k, d)
  {
    PanicVerdict(h, dataDir, k, d.items, d.torn, d.eosSent, fs);
  }

  /** What the client sent before it stopped is regular. */
  lemma HaltRegular(device: Device, paths: seq<PathText>, items: seq<SentItem>, halt: Halt)
    requires HaltOf(device, paths, items, halt) && NamedDevice(device) && PlainBases(device, paths)
    ensures Regular(items) && PlainTorn(halt.torn)
  {
    SendsRegular(device, paths[..halt.at], items);
    if halt.at < |paths| {
      TornPlain(device, paths[halt.at], halt.torn);
    }
  }

  /** The receiver's answer to a run of the client, for each way the run can end. */
  predicate Acknowledged(dataDir: AbsPath, k: SendKanban, d: Delivery) {
    match d
    case NothingSent => false
    case Complete(items, eosSent) => eosSent && Storable(PlacedSession(dataDir, k, items))
    case Aborted(_, _, _, _, _) => ReadsAsMinusOne(dataDir, k, d)
    case Panicked(_, _, _, _) => ReadsAsZero(dataDir, k, d)
  }

  /**
   Every run of the client, by `SendToOtherDevice`, is one of these deliveries. The receiver answers OK exactly when the
   client got through the whole list and its EOS, and the files are storable; or when it stopped between two items and
   the count of its EOS, -1 after an error and 0 after a panic, happens to be that of the files sent so far.
   */
  lemma DeliveryVerdict(h: Hasher, dataDir: AbsPath, device: Device, k: SendKanban, d: Delivery, fs: FS)
    requires DeliveryOf(device, k, d) && FreshFor(dataDir, k, fs)
    requires NamedDevice(device) && PlainBases(device, k.afterKanban.fileList)
    ensures ParseSession(h, dataDir, DeliveryMsgs(h, k, d), fs).ok <==> Acknowledged(dataDir, k, d)
  {
    var paths := k.afterKanban.fileList;
    match d {
      case NothingSent =>
      case Complete(items, eosSent) =>
        SendsRegular(device, paths, items);
        CompleteVerdict(h, dataDir, k, items, eosSent, fs);
      case Aborted(items, at, torn, _, _) =>
        HaltRegular(device, paths, items, Halt(at, torn, false));
        AbortedExactly(h, dataDir, device, k, d, fs);
      case Panicked(items, at, torn, _) =>
        HaltRegular(device, paths, items, Halt(at, torn, true));
        PanickedExactly(h, dataDir, k, d, fs);
    }
  }

  // ---- What a delivery leaves on the disk, acknowledged or not

  /** The whole files of a directory cut short, and where they go. */
  function TornPlaced(out: AbsPath, t: Torn): seq<Placed> {
    match t
    case TornDir(dirName, _, files, _) => PlacedFiles(out + OutBase(dirName), files)
    case _ => []
  }

  predicate RegularTorn(t: Torn) {
    t.TornDir? ==> PlainItem(TopDir(t.dirName, t.files)) && SendingItem(TopDir(t.dirName, t.files))
  }

  /** The files the client got through, in the order sent, and where they go. */
  function WholeFiles(out: AbsPath, d: Delivery): seq<Placed> {
    match d
    case NothingSent => []
    case Complete(items, _) => PlacedItems(out, items)
    case Aborted(items, _, torn, _, _) => PlacedItems(out, items) + TornPlaced(out, torn)
    case Panicked(items, _, torn, _) => PlacedItems(out, items) + TornPlaced(out, torn)
  }

  lemma TornRegular(device: Device, p: PathText, t: Torn)
    requires NamedDevice(device) && PlainBase(SourceOf(device, p)) && TornFrom(SourceOf(device, p), t)
    ensures RegularTorn(t)
  {
    SourceFound(device, p);
    if t.TornDir? {
      var found := SourceOf(device, p).found;
      forall i | 0 <= i < |t.files|
        ensures Transfer.PlainFile(t.files[i]) && IsSending(t.files[i])
      {
        assert FoundOf(t.files[i]) == found[i] && PlainFound(found[i]);
      }
    }
  }

  lemma TornWritesOf(h: Hasher, out: AbsPath, t: Torn)
    requires RegularTorn(t)
    ensures TornWrites(h, out, t) == WritesOf(h, TornPlaced(out, t))
  {
    if t.TornDir? {
      DirPath(out, t.dirName, t.fileCnt);
      FilesWritesOf(h, out + OutBase(t.dirName), t.files);
    }
  }

  lemma TornUnder(out: AbsPath, t: Torn)
    requires RegularTorn(t)
    ensures AllUnder(out, TornPlaced(out, t)) && AllSending(TornPlaced(out, t))
  {
    if t.TornDir? {
      var item := TopDir(t.dirName, t.files);
      PlacedOne(out, item);
      PlacedRegular(out, [item]);
    }
  }

  lemma TailDisk(h: Hasher, want: nat, out: AbsPath, got: Items, t: Torn, tail: seq<Message>, fs: FS)
    requires PlainTorn(t) && StopsWith(tail)
    ensures ParseItems(h, want, out, got, TornMsgs(h, t, tail), fs).fs == ApplyWrites(h, TornWrites(h, out, t), fs).fs
  {
    if !t.TornNone? {
      ParseTorn(h, want, out, got, t, tail, fs);
    }
  }

  lemma StoppedDisk(h: Hasher, dataDir: AbsPath, k: SendKanban, items: seq<SentItem>, t: Torn, tail: seq<Message>, fs: FS)
    requires Regular(items) && PlainTorn(t) && RegularTorn(t) && StopsWith(tail)
    ensures var out := ServiceDir(dataDir, k);
            var s := ParseSession(h, dataDir, SessionMsgs(k, ItemsOf(h, items), TornMsgs(h, t, tail)), fs);
            s.fs == ApplyWrites(h, WritesOf(h, PlacedItems(out, items) + TornPlaced(out, t)), MakeDir(fs, out)).fs
  {
    var out, frames := ServiceDir(dataDir, k), ItemsOf(h, items);
    var a := Effect(h, dataDir, k, frames, fs);
    ItemsWellFormed(h, items);
    ParseHead(h, dataDir, k, frames, TornMsgs(h, t, tail), fs);
    TailDisk(h, |k.afterKanban.fileList|, out, Received(dataDir, k, frames), t, tail, a.fs);
    ItemsWritesOf(h, out, items);
    TornWritesOf(h, out, t);
    WritesOfAppend(h, PlacedItems(out, items), TornPlaced(out, t));
    ApplyWritesAppend(h, WritesOf(h, PlacedItems(out, items)), WritesOf(h, TornPlaced(out, t)), MakeDir(fs, out));
  }

  lemma WholeFilesUnder(out: AbsPath, items: seq<SentItem>, t: Torn)
    requires Regular(items) && RegularTorn(t)
    ensures AllUnder(out, PlacedItems(out, items) + TornPlaced(out, t))
    ensures AllSending(PlacedItems(out, items) + TornPlaced(out, t))
  {
    PlacedRegular(out, items);
    TornUnder(out, t);
  }

  lemma StoppedLeaves(h: Hasher, dataDir: AbsPath, k: SendKanban, items: seq<SentItem>, t: Torn, tail: seq<Message>, fs: FS)
    requires Regular(items) && PlainTorn(t) && RegularTorn(t) && StopsWith(tail) && FreshFor(dataDir, k, fs)
    requires Storable(PlacedItems(ServiceDir(dataDir, k), items) + TornPlaced(ServiceDir(dataDir, k), t))
    ensures var out := ServiceDir(dataDir, k);
            var s := ParseSession(h, dataDir, SessionMsgs(k, ItemsOf(h, items), TornMsgs(h, t, tail)), fs);
            s.fs == After(PlacedItems(out, items) + TornPlaced(out, t), MakeDir(fs, out))
  {
    var out := ServiceDir(dataDir, k);
    StoppedDisk(h, dataDir, k, items, t, tail, fs);
    WholeFilesUnder(out, items, t);
    StoredExactly(h, out, PlacedItems(out, items) + TornPlaced(out, t), MakeDir(fs, out));
  }

  /**
   However a run of the client ends, and whatever the receiver answers: if the files the client got through are storable,
   the disk then holds exactly those files, whole, besides what it held before; of a file cut short it holds nothing.
   */
  lemma LeavesWholeFiles(h: Hasher, dataDir: AbsPath, device: Device, k: SendKanban, d: Delivery, fs: FS)
    requires DeliveryOf(device, k, d) && FreshFor(dataDir, k, fs) && !d.NothingSent?
    requires NamedDevice(device) && PlainBases(device, k.afterKanban.fileList)
    requires Storable(WholeFiles(ServiceDir(dataDir, k), d))
    ensures var out := ServiceDir(dataDir, k);
            ParseSession(h, dataDir, DeliveryMsgs(h, k, d), fs).fs == After(WholeFiles(out, d), MakeDir(fs, out))
  {
    var paths, out := k.afterKanban.fileList, ServiceDir(dataDir, k);
    match d {
      case Complete(items, eosSent) =>
        SendsRegular(device, paths, items);
        assert PlacedItems(out, items) + TornPlaced(out, TornNone) == PlacedItems(out, items);
        StoppedLeaves(h, dataDir, k, items, TornNone, EosTail(FileCount(items), eosSent), fs);
      case Aborted(items, at, torn, failedSent, eosSent) =>
        HaltLeaves(h, dataDir, device, k, items, Halt(at, torn, false), AbortTail(failedSent, eosSent), fs);
      case Panicked(items, at, torn, eosSent) =>
        HaltLeaves(h, dataDir, device, k, items, Halt(at, torn, true), EosTail(0, eosSent), fs);
    }
  }

  lemma HaltLeaves(h: Hasher, dataDir: AbsPath, device: Device, k: SendKanban, items: seq<SentItem>, halt: Halt,
                   tail: seq<Message>, fs: FS)
    requires HaltOf(device, k.afterKanban.fileList, items, halt) && StopsWith(tail) && FreshFor(dataDir, k, fs)
    requires NamedDevice(device) && PlainBases(device, k.afterKanban.fileList)
    requires Storable(PlacedItems(ServiceDir(dataDir, k), items) + TornPlaced(ServiceDir(dataDir, k), halt.torn))
    ensures var out := ServiceDir(dataDir, k);
            var s := ParseSession(h, dataDir, SessionMsgs(k, ItemsOf(h, items), TornMsgs(h, halt.torn, tail)), fs);
            s.fs == After(PlacedItems(out, items) + TornPlaced(out, halt.torn), MakeDir(fs, out))
  {
    var paths := k.afterKanban.fileList;
    HaltRegular(device, paths, items, halt);
    if halt.at < |paths| {
      assert PlainBase(SourceOf(device, paths[halt.at]));
      TornRegular(device, paths[halt.at], halt.torn);
    }
    StoppedLeaves(h, dataDir, k, items, halt.torn, tail, fs);
  }

  // ---- Runs that stop early and are acknowledged

  /** A panic at the first path, on any device, is acknowledged, and the kanban goes on with an empty file list. */
  lemma PanicAcknowledged(h: Hasher, dataDir: AbsPath, device: Device, k: SendKanban, fs: FS)
    requires FreshFor(dataDir, k, fs) && k.afterKanban.fileList != []
    ensures var d := Panicked([], 0, TornNone, true);
            var s := ParseSession(h, dataDir, DeliveryMsgs(h, k, d), fs);
            DeliveryOf(device, k, d) && s.ok && s.forwarded == Some(WithFileList(k, []))
  {
    var none: seq<SentItem> := [];
    RoundTrip(h, dataDir, k, none, [], fs);
    assert ItemsOf(h, none) == [] && PlacedSession(dataDir, k, none) == [];
    assert [EosMsg(FileCount(none))] + [] == [EosMsg(0)];
    assert DirTexts(ServiceDir(dataDir, k), none) + FileTexts(ServiceDir(dataDir, k), none) == [];
  }

  function Times<T>(x: T, n: nat): seq<T> {
    if n == 0 then [] else Times(x, n - 1) + [x]
  }

  lemma {:induction false} TimesAll<T>(x: T, n: nat)
    ensures |Times(x, n)| == n && forall i | 0 <= i < n :: Times(x, n)[i] == x
  {
    if n > 0 {
      TimesAll(x, n - 1);
    }
  }

  const EMPTY_FILE := SentFile([], "a", [], [])

  /** A device with one empty file, "/a". */
  const SMALL_DEVICE := Device(DirNode([Entry("a", FileNode([]))]), [])

  lemma SmallDevice()
    ensures NamedDevice(SMALL_DEVICE)
    ensures SourceOf(SMALL_DEVICE, ["", "a"]) == PlainFile("a", []) && SourceOf(SMALL_DEVICE, ["", "b"]) == Absent
  {
    var entries := [Entry("a", FileNode([]))];
    assert entries[1..] == [];
    assert ["", "a"][1..] == ["a"] && ["a"][1..] == [];
    assert ["", "b"][1..] == ["b"] && ["b"][1..] == [];
    assert Join([], ["", "a"]) == [] + ["a"] == ["a"];
    assert Join([], ["", "b"]) == [] + ["b"] == ["b"];
    assert Lookup(SMALL_DEVICE.root, ["a"]) == Lookup(FileNode([]), []);
  }

  lemma {:induction false} ManySent(device: Device, p: PathText, paths: seq<PathText>, items: seq<SentItem>)
    requires |paths| == |items| && SourceOf(device, p) == PlainFile("a", [])
    requires forall i | 0 <= i < |paths| :: paths[i] == p && items[i] == TopFile(EMPTY_FILE)
    ensures Sends(device, paths, items)
    decreases |paths|
  {
    if paths != [] {
      ManySent(device, p, paths[..|paths| - 1], items[..|items| - 1]);
      assert Describes(SourceOf(device, p), items[|items| - 1]);
    }
  }

  lemma {:induction false} ManyFiles(items: seq<SentItem>)
    requires forall i | 0 <= i < |items| :: items[i] == TopFile(EMPTY_FILE)
    ensures FileCount(items) == |items|
    decreases |items|
  {
    if items != [] {
      ManyFiles(items[1..]);
    }
  }

  lemma {:induction false} ManyPlaced(out: AbsPath, items: seq<SentItem>)
    requires forall i | 0 <= i < |items| :: items[i] == TopFile(EMPTY_FILE)
    ensures forall i | 0 <= i < |PlacedItems(out, items)| :: PlacedItems(out, items)[i] == Placed(out, EMPTY_FILE)
    decreases |items|
  {
    if items != [] {
      ManyPlaced(out, items[1..]);
    }
  }

  lemma ManyStorable(ps: seq<Placed>, out: AbsPath)
    requires forall i | 0 <= i < |ps| :: ps[i] == Placed(out, EMPTY_FILE)
    ensures Storable(ps)
  {
    assert |PathOf(Placed(out, EMPTY_FILE))| == |out| + 1;
  }

  lemma ManyItems(out: AbsPath, items: seq<SentItem>)
    requires forall i | 0 <= i < |items| :: items[i] == TopFile(EMPTY_FILE)
    ensures FileCount(items) == |items| && Storable(PlacedItems(out, items))
  {
    ManyFiles(items);
    ManyPlaced(out, items);
    ManyStorable(PlacedItems(out, items), out);
  }

  /** `n` times the same file is sent, then a missing one stops the client. */
  lemma ManyHalt(device: Device, p: PathText, q: PathText, sent: seq<PathText>, items: seq<SentItem>)
    requires SourceOf(device, p) == PlainFile("a", []) && SourceOf(device, q) == Absent
    requires |sent| == |items| && forall i | 0 <= i < |sent| :: sent[i] == p && items[i] == TopFile(EMPTY_FILE)
    ensures HaltOf(device, sent + [q], items, Halt(|sent|, TornNone, false)) && PlainBases(device, sent + [q])
  {
    ManySent(device, p, sent, items);
    assert (sent + [q])[..|sent|] == sent;
    forall i | 0 <= i < |sent + [q]|
      ensures PlainBase(SourceOf(device, (sent + [q])[i]))
    {
    }
  }

  lemma ManyDelivery(dataDir: AbsPath, device: Device, p: PathText, q: PathText, k0: SendKanban, n: nat)
    returns (k: SendKanban, d: Delivery)
    requires SourceOf(device, p) == PlainFile("a", []) && SourceOf(device, q) == Absent
    ensures k == WithFileList(k0, k.afterKanban.fileList)
    ensures DeliveryOf(device, k, d) && PlainBases(device, k.afterKanban.fileList)
    ensures d.Aborted? && d.torn.TornNone? && !d.failedSent && d.eosSent
    ensures FileCount(d.items) == n && Storable(PlacedSession(dataDir, k, d.items))
  {
    var sent, items := Times(p, n), Times(TopFile(EMPTY_FILE), n);
    k := WithFileList(k0, sent + [q]);
    d := Aborted(items, n, TornNone, false, true);
    TimesAll(p, n);
    TimesAll(TopFile(EMPTY_FILE), n);
    ManyHalt(device, p, q, sent, items);
    ManyItems(ServiceDir(dataDir, k), items);
  }

  /**
   The exception is real: a list of 2^32 - 1 times the same file and then a missing one. The client stops with an error,
   its failure notice is lost, and it is answered OK.
   */
  lemma AbortAcknowledged(h: Hasher, dataDir: AbsPath, k0: SendKanban, fs: FS) returns (k: SendKanban, d: Delivery)
    requires FreshFor(dataDir, k0, fs)
    ensures FreshFor(dataDir, k, fs) && DeliveryOf(SMALL_DEVICE, k, d) && d.Aborted? && ReadsAsMinusOne(dataDir, k, d)
    ensures ParseSession(h, dataDir, DeliveryMsgs(h, k, d), fs).ok
  {
    SmallDevice();
    k, d := ManyDelivery(dataDir, SMALL_DEVICE, ["", "a"], ["", "b"], k0, 0xffff_ffff);
    DeliveryVerdict(h, dataDir, SMALL_DEVICE, k, d, fs);
  }
}
