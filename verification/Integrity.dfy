/**
 What the hash check of the receiver guarantees, whoever the sender is.
 Main results: `AcceptedSessionIntact` and `WriteIsVerified`.
 */
module Integrity {
  import opened Basics
  import opened Paths
  import opened FileStore
  import opened Kanbans
  import opened Messages
  import opened Receiver
  import opened Language
  import opened Storage
  import opened Transfer

  /** An accepted file's verified path reads back as the announced hash; a file that fails the check is gone from it. */
  lemma AcceptedFileMatchesHash(h: Hasher, info: FileInfo, eof: FileInfo, out: AbsPath, bytes: Bytes, fs: FS)
    ensures var a := Finish(h, info, eof, out, bytes, fs);
            var path := VerifyPath(eof, out);
            && (a.ok && info.hash != [] ==> path in a.fs.files && h(a.fs.files[path]) == info.hash)
            && (a.ok && WritePath(info, eof, out) == path ==> h(bytes) == info.hash && a.fs.files[path] == bytes)
            && (!a.ok && Create(MakeAllDirs(fs, Join(out, eof.relDir)), WritePath(info, eof, out), bytes).Some?
                ==> path !in a.fs.files)
  {
  }

  /**
   When a file is accepted: it could be created, and what is at the verified path afterwards has the announced hash -- a
   directory there counts as having the empty one. The disk then is as the creation left it; a file that fails the check is
   removed, and nothing else is.
   */
  lemma FileAcceptedExactly(h: Hasher, info: FileInfo, eof: FileInfo, out: AbsPath, bytes: Bytes, fs: FS)
    ensures var made := MakeAllDirs(fs, Join(out, eof.relDir));
            var a, created, path := Finish(h, info, eof, out, bytes, fs), Create(made, WritePath(info, eof, out), bytes), VerifyPath(eof, out);
            && (a.ok <==>
                && created.Some?
                && if path in created.value.files then h(created.value.files[path]) == info.hash
                   else path in created.value.dirs && info.hash == [])
            && (created.None? ==> a.fs == made)
            && (a.ok ==> a.fs == created.value)
            && (created.Some? && path in created.value.files && !a.ok ==>
                  a.fs == created.value.(files := created.value.files - {path}))
  {
  }

  /** A file is checked where it was written exactly when the trailer has its name and its directory leads nowhere new. */
  lemma WriteIsVerified(info: FileInfo, eof: FileInfo, out: AbsPath, name: string, checked: string)
    requires !IsAbs(info.relDir) && Plain(name) && Plain(checked)
    requires info.name == [name] && eof.name == [checked]
    ensures var dir := Join(out, eof.relDir);
            WritePath(info, eof, out) == VerifyPath(eof, out) <==> name == checked && Join(dir, info.relDir) == dir
  {
    var d := info.relDir;
    var dir := Join(out, eof.relDir);
    ResolveSnoc(false, [], d, name);
    ResolveSnoc(true, dir, Resolve(false, [], d), name);
    ResolveSnoc(true, dir, [], checked);
    assert [] + [checked] == [checked];
    ResolveCleaned(dir, d);
    assert WritePath(info, eof, out) == Join(dir, d) + [name] && VerifyPath(eof, out) == dir + [checked];
    SameLast(Join(dir, d), name, dir, checked);
  }

  lemma SameLast(a: AbsPath, x: string, b: AbsPath, y: string)
    ensures a + [x] == b + [y] <==> a == b && x == y
  {
    if a + [x] == b + [y] {
      assert a == (a + [x])[..|a + [x]| - 1];
      assert b == (b + [y])[..|b + [y]| - 1];
    }
  }

  lemma {:induction false} NothingLeft(t: PathText)
    requires NoDotDot(t)
    ensures Resolve(false, [], t) == [] <==> forall i | 0 <= i < |t| :: t[i] == "" || t[i] == "."
    decreases |t|
  {
    if t != [] {
      assert t == Drop(t) + [Last(t)];
      NothingLeft(Drop(t));
      ResolveSnoc(false, [], Drop(t), Last(t));
    }
  }

  /** Without ".." that means: exactly when the relative directory is "." (or spelt with empty pieces). */
  lemma OnlyDotIsVerified(info: FileInfo, eof: FileInfo, out: AbsPath, name: string)
    requires info.relDir == eof.relDir && !IsAbs(info.relDir) && NoDotDot(info.relDir) && Plain(name)
    requires info.name == [name] && eof.name == [name]
    ensures WritePath(info, eof, out) == VerifyPath(eof, out)
       <==> forall i | 0 <= i < |info.relDir| :: info.relDir[i] == "" || info.relDir[i] == "."
  {
    var d := info.relDir;
    WriteIsVerified(info, eof, out, name, name);
    ResolveNoDotDot(true, out, d);
    ResolveNoDotDot(true, Join(out, d), d);
    NothingLeft(d);
  }

  /** Whether the header's path, directory and name together, is absolute. */
  predicate HeaderIsAbs(info: FileInfo) {
    IsAbs(if info.relDir == [""] then info.name else info.relDir)
  }

  /**
   The list reports the place that the header's path leads to, from the root if it is absolute and else from the output
   directory. With the trailer's directory "." that is where the file was written, except when the path is absolute.
   */
  lemma ReportedExactly(info: FileInfo, eof: FileInfo, out: AbsPath)
    ensures ReportedPath(info, out) == Join(if HeaderIsAbs(info) then [] else out, info.relDir + info.name)
    ensures eof.relDir == ["."] && out != [] ==>
              (ReportedPath(info, out) == WritePath(info, eof, out) <==> !HeaderIsAbs(info))
  {
    var text := info.relDir + info.name;
    assert ["."][1..] == [];
    assert Join(out, ["."]) == out;
    if HeaderIsAbs(info) {
      JoinPlain([], text);
      ResolvePlain(true, out, Join([], text));
      assert |out + Join([], text)| > |Join([], text)| || out == [];
    } else {
      ResolveCleaned(out, text);
    }
  }

  // ---- Whole sessions

  function WrittenTo(w: Write): AbsPath {
    WritePath(w.file.info, w.file.eof, w.dir)
  }

  function VerifiedAt(w: Write): AbsPath {
    VerifyPath(w.file.eof, w.dir)
  }

  /** No write after the `i`-th goes to the same path. */
  predicate LastTo(ws: seq<Write>, i: nat)
    requires i < |ws|
  {
    forall j | i < j < |ws| :: WrittenTo(ws[j]) != WrittenTo(ws[i])
  }

  lemma WriteEffect(h: Hasher, w: Write, fs: FS)
    requires ApplyWrite(h, w, fs).ok
    ensures ApplyWrite(h, w, fs).fs.files == fs.files[WrittenTo(w) := Payload(w.file.chunks)]
    ensures WrittenTo(w) == VerifiedAt(w) ==> h(Payload(w.file.chunks)) == w.file.info.hash
  {
    AcceptedFileMatchesHash(h, w.file.info, w.file.eof, w.dir, Payload(w.file.chunks), fs);
  }

  lemma {:induction false} UntouchedLater(h: Hasher, ws: seq<Write>, fs: FS, path: AbsPath)
    requires ApplyWrites(h, ws, fs).ok && path in fs.files
    requires forall j | 0 <= j < |ws| :: WrittenTo(ws[j]) != path
    ensures var after := ApplyWrites(h, ws, fs).fs;
            path in after.files && after.files[path] == fs.files[path]
    decreases |ws|
  {
    if ws != [] {
      WriteEffect(h, ws[0], fs);
      UntouchedLater(h, ws[1..], ApplyWrite(h, ws[0], fs).fs, path);
    }
  }

  lemma {:induction false} WritesIntact(h: Hasher, ws: seq<Write>, fs: FS, i: nat)
    requires ApplyWrites(h, ws, fs).ok && i < |ws| && LastTo(ws, i)
    ensures var after := ApplyWrites(h, ws, fs).fs;
            && WrittenTo(ws[i]) in after.files
            && after.files[WrittenTo(ws[i])] == Payload(ws[i].file.chunks)
            && (WrittenTo(ws[i]) == VerifiedAt(ws[i]) ==> h(after.files[WrittenTo(ws[i])]) == ws[i].file.info.hash)
    decreases |ws|
  {
    var next := ApplyWrite(h, ws[0], fs).fs;
    WriteEffect(h, ws[0], fs);
    if i == 0 {
      UntouchedLater(h, ws[1..], next, WrittenTo(ws[0]));
    } else {
      assert forall j | i < j < |ws| :: ws[j] == ws[1..][j - 1];
      WritesIntact(h, ws[1..], next, i - 1);
    }
  }

  /**
   After any accepted session, from any sender: where a file was the last to be written, the disk holds the
   concatenation of its chunks, and where the receiver checked that very path, it has the announced hash.
   */
  lemma AcceptedSessionIntact(h: Hasher, dataDir: AbsPath, ms: seq<Message>, fs: FS)
    returns (k: SendKanban, items: seq<ItemFrame>, end: Message)
    requires ParseSession(h, dataDir, ms, fs).ok
    ensures var s := ParseSession(h, dataDir, ms, fs);
            var ws := ItemsWrites(ServiceDir(dataDir, k), items);
            && ms == SessionMsgs(k, items, [end] + s.rest)
            && forall i | 0 <= i < |ws| && LastTo(ws, i) ::
                 && WrittenTo(ws[i]) in s.fs.files
                 && s.fs.files[WrittenTo(ws[i])] == Payload(ws[i].file.chunks)
                 && (WrittenTo(ws[i]) == VerifiedAt(ws[i]) ==> h(s.fs.files[WrittenTo(ws[i])]) == ws[i].file.info.hash)
  {
    k, items, end := SessionSound(h, dataDir, ms, fs);
    SessionsAccepted(h, dataDir, k, items, end, ParseSession(h, dataDir, ms, fs).rest, ms, fs);
    var out := ServiceDir(dataDir, k);
    var ws := ItemsWrites(out, items);
    forall i | 0 <= i < |ws| && LastTo(ws, i)
      ensures var after := ApplyWrites(h, ws, MakeDir(fs, out)).fs;
              && WrittenTo(ws[i]) in after.files
              && after.files[WrittenTo(ws[i])] == Payload(ws[i].file.chunks)
              && (WrittenTo(ws[i]) == VerifiedAt(ws[i]) ==> h(after.files[WrittenTo(ws[i])]) == ws[i].file.info.hash)
    {
      WritesIntact(h, ws, MakeDir(fs, out), i);
    }
  }

  // ---- Header and trailer that name different files

  /** A frame of one chunk whose header names `name` and whose trailer names `checked`. */
  function Frame(name: string, checked: string, hash: Bytes, bytes: Bytes): FileFrame {
    FileFrame(FileInfo(|bytes|, 0, hash, [name], ["."]), [Chunk(bytes, [name], 0)], FileInfo(|bytes|, 1, hash, [checked], ["."]))
  }

  lemma FramePaths(out: AbsPath, name: string, checked: string, hash: Bytes, bytes: Bytes)
    requires Plain(name) && Plain(checked)
    ensures var w := Write(out, Frame(name, checked, hash, bytes));
            && Join(out, w.file.eof.relDir) == out
            && WrittenTo(w) == out + [name] && VerifiedAt(w) == out + [checked]
            && Payload(w.file.chunks) == bytes && WellFormedFile(w.file)
  {
    var f := Frame(name, checked, hash, bytes);
    FlatPaths(out, name, f.info);
    assert ["."][1..] == [];
    ResolvePlain(true, out, [name]);
    ResolvePlain(true, out, [checked]);
    assert [] + [name] == [name];
    assert f.chunks[1..] == [] && bytes + [] == bytes;
  }

  /** Writing such a frame where the directory exists and the checked file has the announced hash. */
  lemma FrameWritten(h: Hasher, out: AbsPath, name: string, checked: string, hash: Bytes, bytes: Bytes, fs: FS)
    requires Plain(name) && Plain(checked)
    requires out in fs.dirs && out + [name] !in fs.dirs && out + [checked] !in fs.dirs
    requires if name == checked then hash == h(bytes)
             else out + [checked] in fs.files && h(fs.files[out + [checked]]) == hash
    ensures ApplyWrite(h, Write(out, Frame(name, checked, hash, bytes)), fs)
         == Applied(true, fs.(files := fs.files[out + [name] := bytes]))
  {
    FramePaths(out, name, checked, hash, bytes);
    assert Drop(out + [name]) == out;
    assert (out + [name])[|out|] == name && (out + [checked])[|out|] == checked;
  }

  lemma ItemsOfTwo(out: AbsPath, a: FileFrame, b: FileFrame)
    ensures ItemsWrites(out, [FileItem(a), FileItem(b)]) == [Write(out, a), Write(out, b)]
    ensures ReceivedFileCnt(AddAll(Items([], []), out, [FileItem(a), FileItem(b)])) == 2
  {
    var two, one := [FileItem(a), FileItem(b)], [FileItem(b)];
    assert two[1..] == one && one[1..] == [];
    assert ItemsWrites(out, one) == [Write(out, b)] + [] == [Write(out, b)];
    var got := Add(Items([], []), out, FileItem(a));
    assert AddAll(got, out, one) == AddAll(Add(got, out, FileItem(b)), out, []);
  }

  lemma OneWrite(h: Hasher, w: Write, fs: FS)
    ensures ApplyWrites(h, [w], fs) == ApplyWrite(h, w, fs)
  {
    assert [w][1..] == [];
  }

  lemma TwoWritten(h: Hasher, out: AbsPath, honest: Bytes, any: Bytes, fs: FS)
    requires out in fs.dirs && out + ["a"] !in fs.dirs && out + ["b"] !in fs.dirs
    ensures var ws := [Write(out, Frame("a", "a", h(honest), honest)), Write(out, Frame("b", "a", h(honest), any))];
            ApplyWrites(h, ws, fs) == Applied(true, fs.(files := fs.files[out + ["a"] := honest][out + ["b"] := any]))
  {
    var first, second := Write(out, Frame("a", "a", h(honest), honest)), Write(out, Frame("b", "a", h(honest), any));
    var between := fs.(files := fs.files[out + ["a"] := honest]);
    FrameWritten(h, out, "a", "a", h(honest), honest, fs);
    FrameWritten(h, out, "b", "a", h(honest), any, between);
    OneWrite(h, second, between);
    assert [first, second][1..] == [second];
  }

  /** A session of two files that can be written is accepted. */
  lemma TwoFiles(h: Hasher, dataDir: AbsPath, k: SendKanban, a: FileFrame, b: FileFrame, fs: FS)
    requires WellFormedFile(a) && WellFormedFile(b)
    requires var out := ServiceDir(dataDir, k);
             ApplyWrites(h, [Write(out, a), Write(out, b)], MakeDir(fs, out)).ok
    ensures var out := ServiceDir(dataDir, k);
            var s := ParseSession(h, dataDir, SessionMsgs(k, [FileItem(a), FileItem(b)], [Message(Eos, StreamBody(2))]), fs);
            s.ok && s.fs == ApplyWrites(h, [Write(out, a), Write(out, b)], MakeDir(fs, out)).fs
  {
    var items := [FileItem(a), FileItem(b)];
    var end := Message(Eos, StreamBody(2));
    ItemsOfTwo(ServiceDir(dataDir, k), a, b);
    assert WellFormed(items);
    assert [end] + [] == [end];
    SessionsAccepted(h, dataDir, k, items, end, [], SessionMsgs(k, items, [end]), fs);
  }

  /**
   The hash check can be passed with any bytes: a sender whose second file names itself in the header and the honest
   first file in the trailer has that first file checked instead. Both are accepted under the same hash.
   */
  lemma UncheckedBytes(h: Hasher, dataDir: AbsPath, k: SendKanban, honest: Bytes, any: Bytes, fs: FS)
    requires FreshFor(dataDir, k, fs) && ServiceDir(dataDir, k) in MakeDir(fs, ServiceDir(dataDir, k)).dirs
    ensures var items := [FileItem(Frame("a", "a", h(honest), honest)), FileItem(Frame("b", "a", h(honest), any))];
            var s := ParseSession(h, dataDir, SessionMsgs(k, items, [Message(Eos, StreamBody(2))]), fs);
            var path := ServiceDir(dataDir, k) + ["b"];
            s.ok && path in s.fs.files && s.fs.files[path] == any
  {
    var out := ServiceDir(dataDir, k);
    FramePaths(out, "a", "a", h(honest), honest);
    FramePaths(out, "b", "a", h(honest), any);
    assert (out + ["a"])[..|out|] == out && (out + ["b"])[..|out|] == out;
    TwoWritten(h, out, honest, any, MakeDir(fs, out));
    TwoFiles(h, dataDir, k, Frame("a", "a", h(honest), honest), Frame("b", "a", h(honest), any), fs);
  }
}
