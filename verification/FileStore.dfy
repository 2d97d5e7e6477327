/** The receiving device's file system: a set of directories and the bytes of each regular file. */
module FileStore {
  import opened Basics
  import opened Paths

  type HashValue = b: Bytes | |b| == 16 witness seq(16, _ => 0)

  /** The file digest; MD5 in the program, always 16 bytes. */
  type Hasher = Bytes -> HashValue

  datatype FS = FS(dirs: set<AbsPath>, files: map<AbsPath, Bytes>) {
    /** Every entry lies in a directory, and no name is both a file and a directory. */
    ghost predicate Valid() {
      && [] in dirs
      && (forall d {:trigger Drop(d)} | d in dirs && d != [] :: Drop(d) in dirs)
      && (forall f | f in files :: f != [] && f !in dirs)
      && (forall f {:trigger Drop(f)} | f in files :: Drop(f) in dirs)
    }
  }

  /** A path and all its ancestors. */
  function Ancestors(p: AbsPath): set<AbsPath> {
    set i | 0 <= i <= |p| :: p[..i]
  }

  /** `os.Mkdir`; its error is only logged. */
  function MakeDir(fs: FS, p: AbsPath): FS {
    if p == [] || p in fs.dirs || p in fs.files || Drop(p) !in fs.dirs then fs
    else fs.(dirs := fs.dirs + {p})
  }

  /** `os.MkdirAll`; its error, when an ancestor is a regular file, is only logged. */
  function MakeAllDirs(fs: FS, p: AbsPath): FS {
    if p in fs.dirs || exists i | 0 <= i <= |p| :: p[..i] in fs.files then fs
    else fs.(dirs := fs.dirs + Ancestors(p))
  }

  /** `os.Create` followed by `Write`. */
  function Create(fs: FS, p: AbsPath, bytes: Bytes): Option<FS> {
    if p == [] || p in fs.dirs || Drop(p) !in fs.dirs then None
    else Some(fs.(files := fs.files[p := bytes]))
  }

  /** `os.Open` followed by the digest; a directory opens, but reading it yields the empty digest. */
  function Digest(h: Hasher, fs: FS, p: AbsPath): Option<Bytes> {
    if p in fs.files then Some(h(fs.files[p]))
    else if p in fs.dirs then Some([])
    else None
  }

  predicate HasChild(fs: FS, p: AbsPath) {
    || (exists q | q in fs.dirs :: |q| == |p| + 1 && q[..|p|] == p)
    || (exists q | q in fs.files :: |q| == |p| + 1 && q[..|p|] == p)
  }

  /** `os.Remove`: a file, or an empty directory. */
  function Remove(fs: FS, p: AbsPath): FS {
    if p in fs.files then fs.(files := fs.files - {p})
    else if p in fs.dirs && p != [] && !HasChild(fs, p) then fs.(dirs := fs.dirs - {p})
    else fs
  }

  lemma {:induction false} AncestorsInDirs(fs: FS, p: AbsPath)
    requires fs.Valid() && p in fs.dirs
    ensures Ancestors(p) <= fs.dirs
    decreases |p|
  {
    if p != [] {
      AncestorsInDirs(fs, Drop(p));
      forall i | 0 <= i <= |p|
        ensures p[..i] in fs.dirs
      {
        if i < |p| {
          assert p[..i] == Drop(p)[..i];
          assert p[..i] in Ancestors(Drop(p));
        } else {
          assert p[..i] == p;
        }
      }
    }
  }

  lemma MakeAllDirsValid(fs: FS, p: AbsPath)
    requires fs.Valid()
    ensures MakeAllDirs(fs, p).Valid()
  {
    if p !in fs.dirs && !exists i | 0 <= i <= |p| :: p[..i] in fs.files {
      forall i | 0 < i <= |p|
        ensures Drop(p[..i]) in Ancestors(p)
      {
        assert Drop(p[..i]) == p[..i - 1];
      }
    }
  }

  lemma CreateValid(fs: FS, p: AbsPath, bytes: Bytes)
    requires fs.Valid() && Create(fs, p, bytes).Some?
    ensures Create(fs, p, bytes).value.Valid()
  {
  }

  lemma RemoveValid(fs: FS, p: AbsPath)
    requires fs.Valid()
    ensures Remove(fs, p).Valid()
  {
    if p !in fs.files && p in fs.dirs && p != [] && !HasChild(fs, p) {
      forall d | d in fs.dirs - {p} && d != []
        ensures Drop(d) in fs.dirs - {p}
      {
        assert Drop(d) == p ==> |d| == |p| + 1;
      }
      forall f | f in fs.files
        ensures Drop(f) in fs.dirs - {p}
      {
        assert Drop(f) == p ==> |f| == |p| + 1;
      }
    }
  }
}
