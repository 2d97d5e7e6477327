/**
 What a session's file writes leave on the receiving device, and exactly when all of them succeed.
 The output directory is fresh: nothing lies below it, and neither it nor an ancestor is a file.
 */
module Storage {
  import opened Basics
  import opened Paths
  import opened FileStore
  import opened Messages
  import opened Receiver
  import opened Language
  import opened Sender

  /** A sent file and the directory it is downloaded to. */
  datatype Placed = Placed(dir: AbsPath, file: SentFile)

  function WriteOf(h: Hasher, p: Placed): Write {
    Write(p.dir, FrameOf(h, p.file))
  }

  function WritesOf(h: Hasher, ps: seq<Placed>): seq<Write> {
    if ps == [] then [] else WritesOf(h, ps[..|ps| - 1]) + [WriteOf(h, ps[|ps| - 1])]
  }

  lemma {:induction false} WritesOfAppend(h: Hasher, a: seq<Placed>, b: seq<Placed>)
    ensures WritesOf(h, a + b) == WritesOf(h, a) + WritesOf(h, b)
    decreases |b|
  {
    if b == [] {
      assert a + b == a;
    } else {
      assert (a + b)[..|a + b| - 1] == a + b[..|b| - 1];
      WritesOfAppend(h, a, b[..|b| - 1]);
      Reassociate(WritesOf(h, a), WritesOf(h, b[..|b| - 1]), [WriteOf(h, b[|b| - 1])]);
    }
  }

  /** The directory is the output directory or one directly below it; the file's names are entry names. */
  predicate PlacedUnder(out: AbsPath, p: Placed) {
    && |out| <= |p.dir| <= |out| + 1 && p.dir[..|out|] == out
    && Plain(p.file.name) && AllPlain(p.file.relDir)
  }

  predicate AllUnder(out: AbsPath, ps: seq<Placed>) {
    forall i | 0 <= i < |ps| :: PlacedUnder(out, ps[i])
  }

  predicate AllSending(ps: seq<Placed>) {
    forall i | 0 <= i < |ps| :: IsSending(ps[i].file)
  }

  /** Where a file directly in its directory is stored. */
  function PathOf(p: Placed): AbsPath {
    p.dir + [p.file.name]
  }

  ghost predicate Fresh(fs: FS, out: AbsPath) {
    && fs.Valid()
    && (forall d | d in fs.dirs :: |d| <= |out| || d[..|out|] != out)
    && (forall f | f in fs.files :: |f| <= |out| || f[..|out|] != out)
    && (forall i | 0 <= i <= |out| :: out[..i] !in fs.files)
  }

  /** The directories and files after all the writes, later ones overwriting earlier ones. */
  function After(ps: seq<Placed>, fs: FS): FS {
    if ps == [] then fs else AfterOne(ps[|ps| - 1], After(ps[..|ps| - 1], fs))
  }

  function AfterOne(p: Placed, fs: FS): FS {
    FS(fs.dirs + Ancestors(p.dir), fs.files[PathOf(p) := p.file.content])
  }

  /** The condition: every file is sent flat, and no file is stored where another one's directory is needed. */
  predicate Storable(ps: seq<Placed>) {
    && (forall i | 0 <= i < |ps| :: ps[i].file.relDir == [])
    && (forall i, j | 0 <= i < |ps| && 0 <= j < |ps| :: PathOf(ps[i]) != ps[j].dir)
  }

  /** The same condition met file by file, in the order of the writes. */
  predicate StorableInOrder(ps: seq<Placed>) {
    ps == [] || (StorableInOrder(ps[..|ps| - 1]) && Fits(ps[..|ps| - 1], ps[|ps| - 1]))
  }

  /** A flat file can be stored beside those before it. */
  predicate Fits(ps: seq<Placed>, p: Placed) {
    && p.file.relDir == []
    && forall j | 0 <= j < |ps| :: PathOf(p) != ps[j].dir && PathOf(ps[j]) != p.dir
  }

  // ---- Every write keeps the file system a tree

  lemma FinishValid(h: Hasher, info: FileInfo, eof: FileInfo, out: AbsPath, bytes: Bytes, fs: FS)
    requires fs.Valid()
    ensures Finish(h, info, eof, out, bytes, fs).fs.Valid()
  {
    var made := MakeAllDirs(fs, Join(out, eof.relDir));
    MakeAllDirsValid(fs, Join(out, eof.relDir));
    var written := Create(made, WritePath(info, eof, out), bytes);
    if written.Some? {
      CreateValid(made, WritePath(info, eof, out), bytes);
      RemoveValid(written.value, VerifyPath(eof, out));
    }
  }

  // ---- The paths of one file

  lemma FlatPaths(dir: AbsPath, name: string, info: FileInfo)
    requires Plain(name) && info.relDir == ["."] && info.name == [name]
    ensures Join(dir, info.relDir) == dir
    ensures WritePath(info, info, dir) == VerifyPath(info, dir) == dir + [name]
    ensures RelPath(info) == CleanPath(false, [name])
  {
    assert ["."][1..] == [];
    assert AllPlain([name]);
    ResolveAppend(false, [], ["."], [name]);
    ResolvePlain(false, [], [name]);
    assert RelPath(info).parts == [] + [name] == [name];
    assert Join(dir, info.relDir) == dir;
    ResolvePlain(true, dir, [name]);
    assert Join(dir, info.name) == dir + [name];
  }

  lemma NestedPaths(dir: AbsPath, name: string, info: FileInfo)
    requires Plain(name) && info.relDir != [] && AllPlain(info.relDir) && info.name == [name]
    ensures Join(dir, info.relDir) == dir + info.relDir
    ensures WritePath(info, info, dir) == dir + info.relDir + info.relDir + [name]
  {
    var r := info.relDir;
    var rooted := RelPath(info).rooted;
    ResolvePlain(true, dir, r);
    assert AllPlain(r + [name]);
    ResolvePlain(rooted, [], r + [name]);
    assert RelPath(info).parts == [] + (r + [name]) == r + [name];
    ResolvePlain(true, dir + r, r + [name]);
    Reassociate(dir + r, r, [name]);
  }

  /** Neither path depends on the announced number of chunks. */
  lemma PathsOfHeader(info: FileInfo, eof: FileInfo, dir: AbsPath)
    requires info.relDir == eof.relDir && info.name == eof.name
    ensures WritePath(info, eof, dir) == WritePath(eof, eof, dir)
  {
  }

  /** Header, payload and hash agree, because the blocks read make up the content. */
  lemma {:induction false} PayloadOfNumbered(parts: seq<Bytes>, cs: seq<Chunk>)
    requires |cs| == |parts| && forall i | 0 <= i < |cs| :: cs[i].context == parts[i]
    ensures Payload(cs) == Concat(parts)
    decreases |cs|
  {
    if cs != [] {
      PayloadOfNumbered(parts[1..], cs[1..]);
    }
  }

  // ---- What is on disk after some writes

  lemma {:induction false} AfterDirs(ps: seq<Placed>, fs: FS, d: AbsPath)
    ensures d in After(ps, fs).dirs <==> d in fs.dirs || exists j | 0 <= j < |ps| :: d in Ancestors(ps[j].dir)
    decreases |ps|
  {
    if ps != [] {
      AfterDirs(ps[..|ps| - 1], fs, d);
    }
  }

  lemma {:induction false} AfterFiles(ps: seq<Placed>, fs: FS, f: AbsPath)
    ensures f in After(ps, fs).files <==> f in fs.files || exists j | 0 <= j < |ps| :: f == PathOf(ps[j])
    decreases |ps|
  {
    if ps != [] {
      AfterFiles(ps[..|ps| - 1], fs, f);
    }
  }

  lemma {:induction false} LastWriteWins(ps: seq<Placed>, fs: FS, i: nat)
    requires i < |ps| && forall j | i < j < |ps| :: PathOf(ps[j]) != PathOf(ps[i])
    ensures PathOf(ps[i]) in After(ps, fs).files && After(ps, fs).files[PathOf(ps[i])] == ps[i].file.content
    decreases |ps|
  {
    if i < |ps| - 1 {
      LastWriteWins(ps[..|ps| - 1], fs, i);
    }
  }

  /** Some earlier file's directory is `d`, for a `d` strictly below the output directory. */
  lemma BelowIsDir(out: AbsPath, ps: seq<Placed>, fs: FS, d: AbsPath)
    requires Fresh(fs, out) && AllUnder(out, ps) && |d| > |out| && d[..|out|] == out
    ensures d in After(ps, fs).dirs <==> exists j | 0 <= j < |ps| :: d == ps[j].dir
  {
    AfterDirs(ps, fs, d);
    forall j | 0 <= j < |ps|
      ensures d in Ancestors(ps[j].dir) <==> d == ps[j].dir
    {
      assert ps[j].dir[..|ps[j].dir|] == ps[j].dir;
    }
  }

  lemma BelowIsFile(out: AbsPath, ps: seq<Placed>, fs: FS, f: AbsPath)
    requires Fresh(fs, out) && |f| > |out| && f[..|out|] == out
    ensures f in After(ps, fs).files <==> exists j | 0 <= j < |ps| :: f == PathOf(ps[j])
  {
    AfterFiles(ps, fs, f);
  }

  /** No ancestor of a download directory is a file, except the directory itself when a file took its place. */
  lemma BlockedBy(out: AbsPath, ps: seq<Placed>, fs: FS, dir: AbsPath)
    requires Fresh(fs, out) && AllUnder(out, ps)
    requires |out| <= |dir| <= |out| + 1 && dir[..|out|] == out
    ensures (exists i | 0 <= i <= |dir| :: dir[..i] in After(ps, fs).files)
       <==> exists j | 0 <= j < |ps| :: dir == PathOf(ps[j])
  {
    forall i | 0 <= i <= |dir|
      ensures dir[..i] in After(ps, fs).files <==> i > |out| && exists j | 0 <= j < |ps| :: dir == PathOf(ps[j])
    {
      if i <= |out| {
        assert dir[..i] == out[..i];
        AfterFiles(ps, fs, dir[..i]);
      } else {
        assert dir[..i] == dir;
        BelowIsFile(out, ps, fs, dir);
      }
    }
    if j :| 0 <= j < |ps| && dir == PathOf(ps[j]) {
      assert dir[..|dir|] in After(ps, fs).files;
    }
  }

  // ---- One more write

  /** A file from a subdirectory is written one level too deep, where no directory exists. */
  lemma NestedFails(h: Hasher, out: AbsPath, ps: seq<Placed>, p: Placed, fs: FS)
    requires Fresh(fs, out) && AllUnder(out, ps) && PlacedUnder(out, p)
    requires p.file.relDir != []
    ensures !ApplyWrite(h, WriteOf(h, p), After(ps, fs)).ok
  {
    var r := p.file.relDir;
    NestedPaths(p.dir, p.file.name, WriteOf(h, p).file.eof);
    PathsOfHeader(WriteOf(h, p).file.info, WriteOf(h, p).file.eof, p.dir);
    var parent := p.dir + r + r;
    var made := MakeAllDirs(After(ps, fs), p.dir + r);
    assert parent !in Ancestors(p.dir + r);
    assert parent !in made.dirs by {
      assert parent[..|out|] == out;
      BelowIsDir(out, ps, fs, parent);
    }
    assert Drop(parent + [p.file.name]) == parent;
  }

  lemma DirMade(out: AbsPath, ps: seq<Placed>, p: Placed, fs: FS)
    requires Fresh(fs, out) && AllUnder(out, ps) && PlacedUnder(out, p)
    requires After(ps, fs).Valid()
    ensures var before := After(ps, fs);
            var made := MakeAllDirs(before, p.dir);
            if exists j | 0 <= j < |ps| :: PathOf(ps[j]) == p.dir
            then made == before && p.dir !in made.dirs
            else made == FS(before.dirs + Ancestors(p.dir), before.files)
  {
    var before := After(ps, fs);
    BlockedBy(out, ps, fs, p.dir);
    if p.dir in before.dirs {
      AncestorsInDirs(before, p.dir);
      assert before.dirs + Ancestors(p.dir) == before.dirs;
    }
    forall j | 0 <= j < |ps| && PathOf(ps[j]) == p.dir
      ensures p.dir !in before.dirs
    {
      AfterFiles(ps, fs, PathOf(ps[j]));
    }
  }

  lemma NameTaken(out: AbsPath, ps: seq<Placed>, p: Placed, fs: FS)
    requires Fresh(fs, out) && AllUnder(out, ps) && PlacedUnder(out, p)
    ensures PathOf(p) in After(ps, fs).dirs + Ancestors(p.dir) <==> exists j | 0 <= j < |ps| :: PathOf(p) == ps[j].dir
  {
    assert PathOf(p)[..|out|] == out;
    BelowIsDir(out, ps, fs, PathOf(p));
  }

  /** Writing a flat file whose directory could be made. */
  lemma FlatWrite(h: Hasher, p: Placed, before: FS, made: FS)
    requires Plain(p.file.name) && p.file.relDir == [] && IsSending(p.file)
    requires made == MakeAllDirs(before, p.dir)
    ensures var a := ApplyWrite(h, WriteOf(h, p), before);
            && (a.ok <==> PathOf(p) !in made.dirs && p.dir in made.dirs)
            && (a.ok ==> a.fs == FS(made.dirs, made.files[PathOf(p) := p.file.content]))
  {
    var w := WriteOf(h, p).file;
    FlatPaths(p.dir, p.file.name, w.eof);
    PathsOfHeader(w.info, w.eof, p.dir);
    PayloadOfNumbered(p.file.parts, w.chunks);
    assert Drop(PathOf(p)) == p.dir;
  }

  lemma FlatFits(out: AbsPath, ps: seq<Placed>, p: Placed, fs: FS)
    requires Fresh(fs, out) && AllUnder(out, ps) && PlacedUnder(out, p)
    requires After(ps, fs).Valid() && p.file.relDir == []
    ensures var made := MakeAllDirs(After(ps, fs), p.dir);
            && (PathOf(p) !in made.dirs && p.dir in made.dirs <==> Fits(ps, p))
            && (Fits(ps, p) ==> made == FS(After(ps, fs).dirs + Ancestors(p.dir), After(ps, fs).files))
  {
    DirMade(out, ps, p, fs);
    NameTaken(out, ps, p, fs);
    assert p.dir[..|p.dir|] == p.dir;
  }

  lemma OneMoreWrite(h: Hasher, out: AbsPath, ps: seq<Placed>, p: Placed, fs: FS)
    requires Fresh(fs, out) && AllUnder(out, ps) && PlacedUnder(out, p) && IsSending(p.file)
    requires After(ps, fs).Valid()
    ensures var a := ApplyWrite(h, WriteOf(h, p), After(ps, fs));
            (a.ok <==> Fits(ps, p)) && (a.ok ==> a.fs == AfterOne(p, After(ps, fs))) && a.fs.Valid()
  {
    var w := WriteOf(h, p).file;
    FinishValid(h, w.info, w.eof, p.dir, Payload(w.chunks), After(ps, fs));
    if p.file.relDir != [] {
      NestedFails(h, out, ps, p, fs);
    } else {
      FlatWrite(h, p, After(ps, fs), MakeAllDirs(After(ps, fs), p.dir));
      FlatFits(out, ps, p, fs);
    }
  }

  lemma {:induction false} StorableBothWays(ps: seq<Placed>)
    ensures StorableInOrder(ps) <==> Storable(ps)
    decreases |ps|
  {
    if ps != [] {
      var before, p := ps[..|ps| - 1], ps[|ps| - 1];
      StorableBothWays(before);
      assert forall j | 0 <= j < |before| :: before[j] == ps[j];
      assert |PathOf(p)| == |p.dir| + 1;
    }
  }

  lemma ApplyLast(h: Hasher, ps: seq<Placed>, fs: FS)
    requires ps != []
    ensures var x := ApplyWrites(h, WritesOf(h, ps[..|ps| - 1]), fs);
            ApplyWrites(h, WritesOf(h, ps), fs) == if x.ok then ApplyWrite(h, WriteOf(h, ps[|ps| - 1]), x.fs) else x
  {
    var before, p := ps[..|ps| - 1], ps[|ps| - 1];
    assert WritesOf(h, ps) == WritesOf(h, before) + [WriteOf(h, p)];
    ApplyWritesAppend(h, WritesOf(h, before), [WriteOf(h, p)], fs);
    assert [WriteOf(h, p)][1..] == [];
  }

  ghost predicate Stored(h: Hasher, ps: seq<Placed>, fs: FS) {
    var a := ApplyWrites(h, WritesOf(h, ps), fs);
    (a.ok <==> StorableInOrder(ps)) && (a.ok ==> a.fs == After(ps, fs) && a.fs.Valid())
  }

  lemma {:induction false} StoredInOrder(h: Hasher, out: AbsPath, ps: seq<Placed>, fs: FS)
    requires Fresh(fs, out) && AllUnder(out, ps) && AllSending(ps)
    ensures Stored(h, ps, fs)
    decreases |ps|
  {
    if ps == [] {
      assert WritesOf(h, ps) == [];
    } else {
      var before, p := ps[..|ps| - 1], ps[|ps| - 1];
      StoredInOrder(h, out, before, fs);
      ApplyLast(h, ps, fs);
      if StorableInOrder(before) {
        OneMoreWrite(h, out, before, p, fs);
      }
    }
  }

  /** The writes of a session all succeed exactly when they are storable, and then leave exactly `After`. */
  lemma StoredExactly(h: Hasher, out: AbsPath, ps: seq<Placed>, fs: FS)
    requires Fresh(fs, out) && AllUnder(out, ps) && AllSending(ps)
    ensures var a := ApplyWrites(h, WritesOf(h, ps), fs);
            (a.ok <==> Storable(ps)) && (a.ok ==> a.fs == After(ps, fs) && a.fs.Valid())
  {
    StoredInOrder(h, out, ps, fs);
    StorableBothWays(ps);
  }
}
