/**
 Lexical paths, as Go's `path/filepath` computes them: `Clean`, `Join`, `Base` and `IsAbs`.
 A path string is kept as the pieces between its slashes, so "/a/b" is ["", "a", "b"] and "" is [""].
 */
module Paths {

  type PathText = seq<string>

  /** A cleaned absolute path; the root is []. */
  type AbsPath = seq<string>

  /** A cleaned path that may be relative, such as the builder's `relPath`. */
  datatype CleanPath = CleanPath(rooted: bool, parts: seq<string>)

  predicate IsAbs(t: PathText) {
    |t| > 1 && t[0] == ""
  }

  /** A piece that names a directory entry. */
  predicate Plain(c: string) {
    c != "" && c != "." && c != ".."
  }

  predicate AllPlain(p: seq<string>) {
    forall i | 0 <= i < |p| :: Plain(p[i])
  }

  predicate NoDotDot(p: seq<string>) {
    forall i | 0 <= i < |p| :: p[i] != ".."
  }

  function Drop(s: seq<string>): seq<string>
    requires s != []
  {
    s[..|s| - 1]
  }

  function Last(s: seq<string>): string
    requires s != []
  {
    s[|s| - 1]
  }

  /** One piece of `filepath.Clean`: empty and "." vanish, ".." removes the piece before it. */
  function Push(rooted: bool, stack: seq<string>, c: string): seq<string> {
    if c == "" || c == "." then stack
    else if c != ".." then stack + [c]
    else if stack != [] && Last(stack) != ".." then Drop(stack)
    else if rooted then stack
    else stack + [".."]
  }

  function Resolve(rooted: bool, stack: seq<string>, pieces: PathText): seq<string>
    decreases |pieces|
  {
    if pieces == [] then stack else Resolve(rooted, Push(rooted, stack, pieces[0]), pieces[1..])
  }

  /** `filepath.Join(dir, t)` for an absolute `dir`. */
  function Join(dir: AbsPath, t: PathText): AbsPath {
    Resolve(true, dir, t)
  }

  /** `filepath.Join(a, b)`: an empty first argument is ignored. */
  function JoinTexts(a: PathText, b: PathText): CleanPath {
    var rooted := IsAbs(if a == [""] then b else a);
    CleanPath(rooted, Resolve(rooted, [], a + b))
  }

  /** `filepath.Base` of a cleaned path. */
  function Base(p: CleanPath): PathText {
    if p.parts != [] then [Last(p.parts)]
    else if p.rooted then ["", ""]
    else ["."]
  }

  /** The string of an absolute path. */
  function Text(p: AbsPath): PathText {
    if p == [] then ["", ""] else [""] + p
  }

  lemma DropLast(s: seq<string>)
    requires s != []
    ensures s == Drop(s) + [Last(s)]
  {
  }

  lemma {:induction false} ResolveAppend(rooted: bool, stack: seq<string>, a: PathText, b: PathText)
    ensures Resolve(rooted, stack, a + b) == Resolve(rooted, Resolve(rooted, stack, a), b)
    decreases |a|
  {
    if a == [] {
      assert a + b == b;
    } else {
      assert (a + b)[1..] == a[1..] + b;
      ResolveAppend(rooted, Push(rooted, stack, a[0]), a[1..], b);
    }
  }

  lemma ResolveSnoc(rooted: bool, stack: seq<string>, a: PathText, c: string)
    ensures Resolve(rooted, stack, a + [c]) == Push(rooted, Resolve(rooted, stack, a), c)
  {
    ResolveAppend(rooted, stack, a, [c]);
  }

  lemma {:induction false} ResolvePlain(rooted: bool, stack: seq<string>, a: PathText)
    requires AllPlain(a)
    ensures Resolve(rooted, stack, a) == stack + a
    decreases |a|
  {
    if a != [] {
      ResolvePlain(rooted, stack + [a[0]], a[1..]);
    }
  }

  /** Cleaning a relative path first does not change where it leads from an absolute directory. */
  lemma {:induction false} ResolveCleaned(dir: AbsPath, t: PathText)
    ensures Resolve(true, dir, Resolve(false, [], t)) == Resolve(true, dir, t)
    decreases |t|
  {
    if t != [] {
      var y, c := Drop(t), Last(t);
      DropLast(t);
      var cy := Resolve(false, [], y);
      ResolveCleaned(dir, y);
      ResolveSnoc(true, dir, y, c);
      ResolveSnoc(false, [], y, c);
      ResolveSnoc(true, dir, cy, c);
      if c == ".." && cy != [] && Last(cy) != ".." {
        CleanedPieces(y);
        DropLast(cy);
        ResolveSnoc(true, dir, Drop(cy), Last(cy));
      }
    }
  }

  /** A cleaned relative path holds only plain pieces and "..". */
  lemma {:induction false} CleanedPieces(t: PathText)
    ensures forall i | 0 <= i < |Resolve(false, [], t)| ::
              Plain(Resolve(false, [], t)[i]) || Resolve(false, [], t)[i] == ".."
    decreases |t|
  {
    if t != [] {
      assert t == Drop(t) + [Last(t)];
      CleanedPieces(Drop(t));
      ResolveSnoc(false, [], Drop(t), Last(t));
    }
  }

  /** Without "..", joining appends the plain pieces: the directory it starts from does not matter. */
  lemma {:induction false} ResolveNoDotDot(rooted: bool, stack: seq<string>, t: PathText)
    requires NoDotDot(t)
    ensures Resolve(rooted, stack, t) == stack + Resolve(false, [], t)
    decreases |t|
  {
    if t != [] {
      var y, c := Drop(t), Last(t);
      assert t == y + [c];
      ResolveNoDotDot(rooted, stack, y);
      ResolveSnoc(rooted, stack, y, c);
      ResolveSnoc(false, [], y, c);
    }
  }

  // ---- The strings behind the pieces

  /** A path as a string: its pieces with slashes between them. */
  function Slashed(t: PathText): string {
    if t == [] then "" else if |t| == 1 then t[0] else t[0] + "/" + Slashed(t[1..])
  }

  predicate NoSlash(t: PathText) {
    forall i | 0 <= i < |t| :: '/' !in t[i]
  }

  /** Of several pieces, the first and those left. */
  lemma SlashedStep(t: PathText)
    requires t != []
    ensures |t| > 1 ==> Slashed(t) == t[0] + ("/" + Slashed(t[1..]))
  {
  }

  /** An absolute path string is one that starts with a slash. */
  lemma AbsExactly(t: PathText)
    requires t != [] && NoSlash(t)
    ensures IsAbs(t) <==> "/" <= Slashed(t)
  {
    SlashedStep(t);
    if t[0] != "" {
      assert Slashed(t)[0] == t[0][0];
      assert t[0][0] in t[0];
    }
  }

  lemma NowhereSlash(s: string)
    requires '/' !in s
    ensures forall i | 0 <= i < |s| :: s[i] != '/'
  {
  }

  /** A prefix without slashes ends within the first piece. */
  lemma PrefixInPiece(a: string, piece: string, rest: string)
    requires '/' !in a && (rest == "" || rest[0] == '/')
    ensures a <= piece + rest <==> a <= piece
  {
    NowhereSlash(a);
    assert rest != "" ==> (piece + rest)[|piece|] == '/';
  }

  /** Two pieces that a slash ends are compared whole. */
  lemma PrefixPastSlash(a: string, more: string, piece: string, rest: string)
    requires '/' !in a && '/' !in piece && (rest == "" || rest[0] == '/')
    ensures a + ("/" + more) <= piece + rest <==> a == piece && rest != "" && more <= rest[1..]
  {
    var x, y := a + ("/" + more), piece + rest;
    NowhereSlash(a);
    NowhereSlash(piece);
    assert x[|a|] == '/' && (rest != "" ==> y[|piece|] == '/');
    assert forall i | 0 <= i < |a| :: x[i] == a[i];
    assert forall i | 0 <= i < |piece| :: y[i] == piece[i];
    if x <= y {
      assert |a| == |piece|;
      assert a == x[..|a|] == y[..|a|] == piece;
      assert more == x[|a| + 1..] && y[|a| + 1..] == rest[1..];
      assert x[|a| + 1..] <= y[|a| + 1..];
    }
    if a == piece && rest != "" && more <= rest[1..] {
      assert x == (piece + "/") + more && y == (piece + "/") + rest[1..];
    }
  }

  /** What follows the first piece of an absolute path. */
  function AfterFirst(p: AbsPath): string
    requires p != []
  {
    if |p| == 1 then "" else "/" + Slashed(p[1..])
  }

  /** The pieces agree up to the last one of `home`, which is a beginning of its counterpart. */
  predicate PiecesStart(target: AbsPath, home: AbsPath) {
    || home == []
    || (|home| <= |target| && Drop(home) == target[..|home| - 1] && Last(home) <= target[|home| - 1])
  }

  lemma {:induction false} PrefixExactly(target: AbsPath, home: AbsPath)
    requires home != [] && target != [] && NoSlash(home) && NoSlash(target)
    ensures Slashed(home) <= Slashed(target) <==> PiecesStart(target, home)
    decreases |home|
  {
    var rest := AfterFirst(target);
    assert Slashed(target) == target[0] + rest;
    if |home| == 1 {
      PrefixInPiece(home[0], target[0], rest);
    } else {
      SlashedStep(home);
      PrefixPastSlash(home[0], Slashed(home[1..]), target[0], rest);
      if |target| > 1 {
        PrefixExactly(target[1..], home[1..]);
        PiecesStartCons(target, home);
      }
    }
  }

  lemma PiecesStartCons(target: AbsPath, home: AbsPath)
    requires |home| > 1 && |target| > 1
    ensures PiecesStart(target, home) <==> home[0] == target[0] && PiecesStart(target[1..], home[1..])
  {
    assert Drop(home) == [home[0]] + Drop(home[1..]);
    if |home| <= |target| {
      assert target[..|home| - 1] == [target[0]] + target[1..][..|home| - 2];
    }
  }

  // ---- What joining means

  /** Piece by piece: "" and "." stay, ".." goes up, and not above the root; a plain piece goes down. */
  lemma JoinPiece(dir: AbsPath, c: string)
    requires AllPlain(dir)
    ensures c == "" || c == "." ==> Join(dir, [c]) == dir
    ensures c == ".." ==> Join(dir, [c]) == if dir == [] then [] else Drop(dir)
    ensures Plain(c) ==> Join(dir, [c]) == dir + [c]
    ensures AllPlain(Join(dir, [c]))
  {
    ResolveSnoc(true, dir, [], c);
    assert [] + [c] == [c];
    assert dir != [] ==> Plain(Last(dir));
  }

  /** And the pieces one after the other. */
  lemma JoinPieces(dir: AbsPath, a: PathText, b: PathText)
    ensures Join(dir, []) == dir && Join(dir, a + b) == Join(Join(dir, a), b)
  {
    ResolveAppend(true, dir, a, b);
  }

  lemma {:induction false} JoinPlain(dir: AbsPath, t: PathText)
    requires AllPlain(dir)
    ensures AllPlain(Join(dir, t))
    decreases |t|
  {
    if t != [] {
      JoinPiece(dir, t[0]);
      JoinPieces(dir, [t[0]], t[1..]);
      JoinPlain(Join(dir, [t[0]]), t[1..]);
      assert t == [t[0]] + t[1..];
    }
  }

  /** The string of a cleaned path is absolute and leads to the path. */
  lemma JoinText(p: AbsPath)
    requires AllPlain(p)
    ensures Join([], Text(p)) == p
    ensures IsAbs(Text(p)) && Slashed(Text(p)) == "/" + Slashed(p)
  {
    JoinPiece([], "");
    JoinPieces([], [""], if p == [] then [""] else p);
    ResolvePlain(true, [], p);
    assert ["", ""] == [""] + [""] && [] + p == p;
  }
}
