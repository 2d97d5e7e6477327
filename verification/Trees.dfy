/**
 What a device holds, said without the client's functions: `At` is the relation "following these names from this node
 leads to that one". Main results: `SourceExactly` and `OneAnswer`, which say what the client makes of every listed path.
 */
module Trees {
  import opened Basics
  import opened Paths
  import opened Sender

  ghost predicate At(node: Node, p: seq<string>, target: Node)
    decreases |p|
  {
    if p == [] then node == target
    else node.DirNode? && exists e | e in node.entries :: e.name == p[0] && At(e.node, p[1..], target)
  }

  /** In every directory the names differ. */
  ghost predicate Distinct(node: Node)
    decreases node
  {
    node.DirNode? ==> DistinctEntries(node.entries)
  }

  ghost predicate DistinctEntries(entries: seq<Entry>)
    decreases entries
  {
    entries == [] ||
    (&& (forall e | e in entries[1..] :: e.name != entries[0].name)
     && Distinct(entries[0].node) && DistinctEntries(entries[1..]))
  }

  // ---- Lookup

  lemma {:induction false} FindExactly(entries: seq<Entry>, name: string, node: Node)
    requires DistinctEntries(entries)
    ensures Find(entries, name) == Some(node) <==> exists e | e in entries :: e.name == name && e.node == node
    ensures Find(entries, name) == Some(node) ==> Distinct(node)
    decreases |entries|
  {
    if entries != [] {
      FindExactly(entries[1..], name, node);
      assert forall e :: e in entries <==> e == entries[0] || e in entries[1..];
    }
  }

  lemma {:induction false} LookupExactly(node: Node, p: seq<string>, target: Node)
    requires Distinct(node)
    ensures Lookup(node, p) == Some(target) <==> At(node, p, target)
    ensures At(node, p, target) ==> Distinct(target)
    decreases |p|
  {
    if p != [] && node.DirNode? {
      var next := Find(node.entries, p[0]);
      if next.Some? {
        FindExactly(node.entries, p[0], next.value);
        LookupExactly(next.value, p[1..], target);
      }
      forall e | e in node.entries && e.name == p[0]
        ensures next == Some(e.node)
      {
        FindExactly(node.entries, p[0], e.node);
      }
    }
  }

  /** A path leads to one node at most. */
  lemma AtUnique(node: Node, p: seq<string>, a: Node, b: Node)
    requires Distinct(node) && At(node, p, a) && At(node, p, b)
    ensures a == b
  {
    LookupExactly(node, p, a);
    LookupExactly(node, p, b);
  }

  lemma {:induction false} AtThrough(node: Node, p: seq<string>, middle: Node, q: seq<string>, target: Node)
    requires Distinct(node) && At(node, p, middle)
    ensures At(node, p + q, target) <==> At(middle, q, target)
    decreases |p|
  {
    if p == [] {
      assert p + q == q;
    } else {
      assert (p + q)[0] == p[0] && (p + q)[1..] == p[1..] + q;
      var e :| e in node.entries && e.name == p[0] && At(e.node, p[1..], middle);
      FindExactly(node.entries, p[0], e.node);
      AtThrough(e.node, p[1..], middle, q, target);
      forall e' | e' in node.entries && e'.name == p[0]
        ensures e'.node == e.node
      {
        FindExactly(node.entries, p[0], e'.node);
      }
    }
  }

  // ---- Walk

  /** A path from a directory goes through its first entry or through another one. */
  lemma AtCons(entries: seq<Entry>, p: seq<string>, target: Node)
    requires entries != [] && p != []
    ensures At(DirNode(entries), p, target)
       <==> (entries[0].name == p[0] && At(entries[0].node, p[1..], target)) || At(DirNode(entries[1..]), p, target)
  {
    assert forall e :: e in entries <==> e == entries[0] || e in entries[1..];
  }

  /** `f` is a regular file below the directory, `rel` being what leads to the directory. */
  ghost predicate Listed(rel: seq<string>, entries: seq<Entry>, f: Found) {
    rel <= f.relDir && At(DirNode(entries), f.relDir[|rel|..] + [f.name], FileNode(f.content))
  }

  lemma ListedHere(rel: seq<string>, e: Entry, f: Found)
    ensures e.node.FileNode? ==>
              (f == Found(rel, e.name, e.node.content) <==>
               rel <= f.relDir && (f.relDir[|rel|..] + [f.name])[0] == e.name
               && At(e.node, (f.relDir[|rel|..] + [f.name])[1..], FileNode(f.content)))
    ensures e.node.DirNode? ==>
              (Listed(rel + [e.name], e.node.entries, f) <==>
               rel <= f.relDir && (f.relDir[|rel|..] + [f.name])[0] == e.name
               && At(e.node, (f.relDir[|rel|..] + [f.name])[1..], FileNode(f.content)))
  {
    if rel <= f.relDir {
      var d := f.relDir[|rel|..];
      assert f.relDir == rel + d;
      if d == [] {
        assert (d + [f.name])[1..] == [];
      } else {
        assert (d + [f.name])[1..] == d[1..] + [f.name];
        if d[0] == e.name {
          assert f.relDir[|rel + [e.name]|..] == d[1..];
          assert rel + [e.name] <= f.relDir;
        }
      }
    }
  }

  lemma {:induction false} WalkLists(rel: seq<string>, entries: seq<Entry>, f: Found)
    requires DistinctEntries(entries) && Walk(rel, entries).Some?
    ensures f in Walk(rel, entries).value <==> Listed(rel, entries, f)
    decreases entries
  {
    if entries != [] {
      var e := entries[0];
      WalkLists(rel, entries[1..], f);
      if e.node.DirNode? {
        WalkLists(rel + [e.name], e.node.entries, f);
      }
      ListedHere(rel, e, f);
      AtCons(entries, f.relDir[if rel <= f.relDir then |rel| else 0..] + [f.name], FileNode(f.content));
    }
  }

  /** Something that is neither a file nor a directory lies below the directory. */
  ghost predicate HasSpecial(entries: seq<Entry>) {
    exists p :: At(DirNode(entries), p, SpecialNode)
  }

  lemma SpecialHere(entries: seq<Entry>)
    requires entries != []
    ensures entries[0].node.SpecialNode? ==> HasSpecial(entries)
    ensures entries[0].node.DirNode? && HasSpecial(entries[0].node.entries) ==> HasSpecial(entries)
  {
    var e := entries[0];
    if e.node.SpecialNode? {
      AtCons(entries, [e.name], SpecialNode);
      assert At(DirNode(entries), [e.name], SpecialNode);
    }
    if e.node.DirNode? && HasSpecial(e.node.entries) {
      var p :| At(e.node, p, SpecialNode);
      AtCons(entries, [e.name] + p, SpecialNode);
      assert At(DirNode(entries), [e.name] + p, SpecialNode);
    }
  }

  lemma SpecialCons(entries: seq<Entry>)
    requires entries != []
    ensures HasSpecial(entries)
       <==> || entries[0].node.SpecialNode? || (entries[0].node.DirNode? && HasSpecial(entries[0].node.entries))
            || HasSpecial(entries[1..])
  {
    SpecialHere(entries);
    if HasSpecial(entries[1..]) {
      var p :| At(DirNode(entries[1..]), p, SpecialNode);
      AtCons(entries, p, SpecialNode);
    }
    if HasSpecial(entries) {
      var p :| At(DirNode(entries), p, SpecialNode);
      AtCons(entries, p, SpecialNode);
    }
  }

  lemma {:induction false} WalkFails(rel: seq<string>, entries: seq<Entry>)
    ensures Walk(rel, entries).None? <==> HasSpecial(entries)
    decreases entries
  {
    if entries == [] {
    } else {
      WalkFails(rel, entries[1..]);
      if entries[0].node.DirNode? {
        WalkFails(rel + [entries[0].name], entries[0].node.entries);
      }
      SpecialCons(entries);
    }
  }

  // ---- The order of the walk

  /** Where the paths part, `p` takes the earlier entry. */
  ghost predicate Before(entries: seq<Entry>, p: seq<string>, q: seq<string>)
    decreases |p|
  {
    && p != [] && q != []
    && exists i, j | 0 <= i <= j < |entries| :: PartAt(entries, i, j, p, q)
  }

  ghost predicate PartAt(entries: seq<Entry>, i: nat, j: nat, p: seq<string>, q: seq<string>)
    requires i <= j < |entries| && p != [] && q != []
    decreases |p|, 0
  {
    && entries[i].name == p[0] && entries[j].name == q[0]
    && (i == j ==> entries[i].node.DirNode? && Before(entries[i].node.entries, p[1..], q[1..]))
  }

  /** What leads from the directory, itself reached by `rel`, to the file found. */
  function Under(rel: seq<string>, f: Found): seq<string> {
    (if |rel| <= |f.relDir| then f.relDir[|rel|..] else []) + [f.name]
  }

  ghost predicate InOrder(rel: seq<string>, entries: seq<Entry>, found: seq<Found>) {
    forall i, j | 0 <= i < j < |found| :: Before(entries, Under(rel, found[i]), Under(rel, found[j]))
  }

  lemma PartsAt(entries: seq<Entry>, p: seq<string>, q: seq<string>) returns (i: nat, j: nat)
    requires Before(entries, p, q)
    ensures i <= j < |entries| && p != [] && q != [] && PartAt(entries, i, j, p, q)
  {
    i, j :| 0 <= i <= j < |entries| && PartAt(entries, i, j, p, q);
  }

  lemma BeforeLater(entries: seq<Entry>, p: seq<string>, q: seq<string>)
    requires entries != [] && Before(entries[1..], p, q)
    ensures Before(entries, p, q)
  {
    var i, j := PartsAt(entries[1..], p, q);
    assert PartAt(entries, i + 1, j + 1, p, q);
  }

  lemma BeforeInside(entries: seq<Entry>, rel: seq<string>, a: Found, b: Found)
    requires entries != [] && entries[0].node.DirNode?
    requires rel + [entries[0].name] <= a.relDir && rel + [entries[0].name] <= b.relDir
    requires Before(entries[0].node.entries, Under(rel + [entries[0].name], a), Under(rel + [entries[0].name], b))
    ensures Before(entries, Under(rel, a), Under(rel, b))
  {
    InsideFirst(rel, entries[0].name, a);
    InsideFirst(rel, entries[0].name, b);
    assert PartAt(entries, 0, 0, Under(rel, a), Under(rel, b));
  }

  lemma InsideFirst(rel: seq<string>, name: string, f: Found)
    requires rel + [name] <= f.relDir
    ensures Under(rel, f)[0] == name && Under(rel, f)[1..] == Under(rel + [name], f)
  {
    assert f.relDir[|rel|..][0] == (rel + [name])[|rel|];
    assert f.relDir[|rel|..][1..] == f.relDir[|rel + [name]|..];
  }

  lemma ListedFirst(rel: seq<string>, entries: seq<Entry>, f: Found) returns (j: nat)
    requires Listed(rel, entries, f)
    ensures j < |entries| && entries[j].name == Under(rel, f)[0]
  {
    var p := Under(rel, f);
    var e :| e in entries && e.name == p[0] && At(e.node, p[1..], FileNode(f.content));
    j :| 0 <= j < |entries| && entries[j] == e;
  }

  lemma BeforeAcross(rel: seq<string>, entries: seq<Entry>, a: Found, b: Found)
    requires entries != [] && Listed(rel, entries[1..], b)
    requires Under(rel, a)[0] == entries[0].name
    ensures Before(entries, Under(rel, a), Under(rel, b))
  {
    var j := ListedFirst(rel, entries[1..], b);
    assert PartAt(entries, 0, j + 1, Under(rel, a), Under(rel, b));
  }

  /** What the first entry lists goes through it. */
  lemma HereFirst(rel: seq<string>, e: Entry, a: Found)
    requires e.node.FileNode? ==> a == Found(rel, e.name, e.node.content)
    requires e.node.DirNode? ==> Listed(rel + [e.name], e.node.entries, a)
    requires !e.node.SpecialNode?
    ensures Under(rel, a)[0] == e.name
  {
    if e.node.DirNode? {
      InsideFirst(rel, e.name, a);
    }
  }

  lemma {:induction false} WalkInOrder(rel: seq<string>, entries: seq<Entry>)
    requires DistinctEntries(entries) && Walk(rel, entries).Some?
    ensures InOrder(rel, entries, Walk(rel, entries).value)
    decreases entries
  {
    if entries != [] {
      var e := entries[0];
      var later := Walk(rel, entries[1..]).value;
      var here := match e.node
        case FileNode(content) => [Found(rel, e.name, content)]
        case DirNode(below) => Walk(rel + [e.name], below).value
        case SpecialNode => [];
      WalkInOrder(rel, entries[1..]);
      if e.node.DirNode? {
        WalkInOrder(rel + [e.name], e.node.entries);
      }
      assert Walk(rel, entries).value == here + later;
      forall i, j | 0 <= i < j < |here + later|
        ensures Before(entries, Under(rel, (here + later)[i]), Under(rel, (here + later)[j]))
      {
        PairInOrder(rel, entries, here, later, i, j);
      }
    }
  }

  /** What the walk lists of one entry, in order. */
  ghost predicate ListsHere(rel: seq<string>, e: Entry, here: seq<Found>) {
    && !e.node.SpecialNode?
    && (e.node.FileNode? ==> here == [Found(rel, e.name, e.node.content)])
    && (e.node.DirNode? ==>
          && Walk(rel + [e.name], e.node.entries) == Some(here)
          && InOrder(rel + [e.name], e.node.entries, here))
  }

  lemma PairInOrder(rel: seq<string>, entries: seq<Entry>, here: seq<Found>, later: seq<Found>, i: nat, j: nat)
    requires entries != [] && DistinctEntries(entries) && i < j < |here + later|
    requires Walk(rel, entries[1..]) == Some(later) && InOrder(rel, entries[1..], later)
    requires ListsHere(rel, entries[0], here)
    ensures Before(entries, Under(rel, (here + later)[i]), Under(rel, (here + later)[j]))
  {
    var e, a, b := entries[0], (here + later)[i], (here + later)[j];
    if e.node.DirNode? && i < |here| {
      WalkLists(rel + [e.name], e.node.entries, a);
    }
    if i >= |here| {
      BeforeLater(entries, Under(rel, a), Under(rel, b));
    } else if j >= |here| {
      WalkLists(rel, entries[1..], b);
      HereFirst(rel, e, a);
      BeforeAcross(rel, entries, a, b);
    } else {
      WalkLists(rel + [e.name], e.node.entries, b);
      BeforeInside(entries, rel, a, b);
    }
  }

  lemma {:induction false} SameNameSameEntry(entries: seq<Entry>, i: nat, j: nat)
    requires DistinctEntries(entries) && i <= j < |entries| && entries[i].name == entries[j].name
    ensures i == j && Distinct(entries[i].node)
    decreases |entries|
  {
    if i > 0 {
      SameNameSameEntry(entries[1..], i - 1, j - 1);
    }
  }

  lemma {:induction false} NotBeforeItself(entries: seq<Entry>, p: seq<string>)
    requires DistinctEntries(entries)
    ensures !Before(entries, p, p)
    decreases |p|
  {
    if Before(entries, p, p) {
      var i, j := PartsAt(entries, p, p);
      SameNameSameEntry(entries, i, j);
      NotBeforeItself(entries[i].node.entries, p[1..]);
    }
  }

  // ---- What a listed path leads to

  /** A relative path starts at the home directory, an absolute one at the root. */
  lemma TargetIs(device: Device, p: PathText)
    requires AllPlain(device.home)
    ensures !IsAbs(p) ==> TargetOf(device, p) == Join(device.home, p)
    ensures IsAbs(p) ==> TargetOf(device, p) == Join([], p[1..])
  {
    if IsAbs(p) {
      JoinPiece([], "");
      JoinPieces([], [""], p[1..]);
      assert p == [""] + p[1..];
    } else {
      JoinPlain(device.home, p);
      JoinText(Join(device.home, p));
    }
  }

  /** The base name is the last piece that is not empty; the root's is "/". */
  lemma {:induction false} BaseTextIs(t: PathText)
    ensures (forall i | 0 <= i < |t| :: t[i] == "") ==> BaseText(t) == ["", ""]
    ensures forall i | 0 <= i < |t| && t[i] != "" && (forall j | i < j < |t| :: t[j] == "") :: BaseText(t) == [t[i]]
    decreases |t|
  {
    if t != [] && Last(t) == "" {
      BaseTextIs(Drop(t));
      forall i | 0 <= i < |t| && t[i] != "" && (forall j | i < j < |t| :: t[j] == "")
        ensures BaseText(t) == [t[i]]
      {
        assert Drop(t)[i] == t[i];
      }
    }
  }

  /** `filepath.Clean`'s string: the empty relative path is ".". */
  function CleanText(p: CleanPath): PathText {
    if p.rooted then Text(p.parts) else if p.parts == [] then ["."] else p.parts
  }

  /** Of a cleaned path it is what `filepath.Base` gives for its string. */
  lemma BaseAgrees(p: CleanPath)
    requires forall i | 0 <= i < |p.parts| :: p.parts[i] != ""
    ensures Base(p) == BaseText(CleanText(p))
  {
    var t := CleanText(p);
    BaseTextIs(t);
    if p.parts != [] {
      assert Last(t) == Last(p.parts);
    }
  }

  /** A listed path that ends in a name has the base name that it leads to. */
  lemma BaseIsName(device: Device, p: PathText)
    requires AllPlain(device.home) && TargetOf(device, p) != []
    requires IsAbs(p) ==> Plain(Last(p))
    ensures BaseText(TextOf(device, p)) == [Last(TargetOf(device, p))]
  {
    var target := TargetOf(device, p);
    TargetIs(device, p);
    if IsAbs(p) {
      ResolveSnoc(true, [], Drop(p[1..]), Last(p));
      DropLast(p[1..]);
    } else {
      JoinPlain(device.home, p);
      assert Plain(Last(target)) && Last(Text(target)) == Last(target);
    }
  }

  /** `isSendable` compares the strings of the two paths. */
  lemma SendableExactly(target: AbsPath, home: AbsPath)
    requires NoSlash(target) && NoSlash(home) && AllPlain(home)
    ensures IsSendable(target, home) <==> "/" + Slashed(home) <= "/" + Slashed(target)
  {
    if home != [] && target != [] {
      PrefixExactly(target, home);
      PrefixCons('/', Slashed(home), Slashed(target));
    } else if home != [] {
      assert Slashed(home)[0] == home[0][0];
    }
  }

  lemma PrefixCons(c: char, a: string, b: string)
    ensures a <= b <==> [c] + a <= [c] + b
  {
    assert ([c] + a)[1..] == a && ([c] + b)[1..] == b;
    if [c] + a <= [c] + b {
      assert a == ([c] + b)[1..][..|a|];
    }
  }

  /** The regular files below the directory at `target`, with their bytes, each once and in the order of its entries. */
  ghost predicate Holds(root: Node, target: AbsPath, entries: seq<Entry>, found: seq<Found>) {
    && At(root, target, DirNode(entries))
    && (forall f :: f in found <==> At(root, target + (f.relDir + [f.name]), FileNode(f.content)))
    && InOrder([], entries, found) && OnceEach(found)
  }

  /** No path is listed twice. */
  ghost predicate OnceEach(found: seq<Found>) {
    forall i, j | 0 <= i < j < |found| :: found[i].relDir != found[j].relDir || found[i].name != found[j].name
  }

  lemma InOrderOnce(entries: seq<Entry>, found: seq<Found>)
    requires DistinctEntries(entries) && InOrder([], entries, found)
    ensures OnceEach(found)
  {
    forall i, j | 0 <= i < j < |found|
      ensures found[i].relDir != found[j].relDir || found[i].name != found[j].name
    {
      NotBeforeItself(entries, Under([], found[i]));
    }
  }

  lemma WalkHolds(root: Node, target: AbsPath, entries: seq<Entry>)
    requires Distinct(root) && At(root, target, DirNode(entries)) && Walk([], entries).Some?
    ensures Holds(root, target, entries, Walk([], entries).value)
  {
    LookupExactly(root, target, DirNode(entries));
    WalkInOrder([], entries);
    InOrderOnce(entries, Walk([], entries).value);
    forall f
      ensures f in Walk([], entries).value <==> At(root, target + (f.relDir + [f.name]), FileNode(f.content))
    {
      WalkLists([], entries, f);
      assert f.relDir[0..] == f.relDir;
      AtThrough(root, target, DirNode(entries), f.relDir + [f.name], FileNode(f.content));
    }
  }

  lemma SpecialBelow(root: Node, target: AbsPath, entries: seq<Entry>)
    requires Distinct(root) && At(root, target, DirNode(entries))
    ensures HasSpecial(entries) <==> exists p :: At(root, target + p, SpecialNode)
  {
    forall p
      ensures At(root, target + p, SpecialNode) <==> At(DirNode(entries), p, SpecialNode)
    {
      AtThrough(root, target, DirNode(entries), p, SpecialNode);
    }
  }

  lemma NothingThere(root: Node, target: AbsPath)
    requires Distinct(root)
    ensures Lookup(root, target).None? <==> forall n :: !At(root, target, n)
  {
    forall n
      ensures Lookup(root, target) == Some(n) <==> At(root, target, n)
    {
      LookupExactly(root, target, n);
    }
    if Lookup(root, target).Some? {
      assert At(root, target, Lookup(root, target).value);
    }
  }

  /** Which of the client's six answers a path gets, by what the device holds at `target` and below. */
  ghost predicate AnswerFor(root: Node, target: AbsPath, home: AbsPath, source: Source) {
    match source
    case Absent => forall n :: !At(root, target, n)
    case Special => At(root, target, SpecialNode)
    case Refused => !IsSendable(target, home) && exists n :: At(root, target, n) && !n.SpecialNode?
    case BadTree =>
      && IsSendable(target, home) && (exists entries :: At(root, target, DirNode(entries)))
      && exists p :: At(root, target + p, SpecialNode)
    case PlainFile(name, content) =>
      IsSendable(target, home) && At(root, target, FileNode(content)) && (target != [] ==> name == Last(target))
    case Folder(_, found) =>
      && IsSendable(target, home) && (exists entries :: Holds(root, target, entries, found))
      && forall p :: !At(root, target + p, SpecialNode)
  }

  /**
   What the client makes of a listed path: a regular file with exactly the bytes held there, or a directory's regular files
   with theirs -- provided the path is sendable and nothing below is neither file nor directory.
   */
  lemma SourceExactly(device: Device, p: PathText)
    requires Distinct(device.root)
    ensures AnswerFor(device.root, TargetOf(device, p), device.home, SourceOf(device, p))
    ensures var source := SourceOf(device, p);
            source.Folder? ==> source.dirName == BaseText(TextOf(device, p))
  {
    var root, target := device.root, TargetOf(device, p);
    NothingThere(root, target);
    var node := Lookup(root, target);
    if node.Some? {
      LookupExactly(root, target, node.value);
      assert At(root, target, node.value);
      if node.value.DirNode? {
        WalkFails([], node.value.entries);
        SpecialBelow(root, target, node.value.entries);
        if Walk([], node.value.entries).Some? {
          WalkHolds(root, target, node.value.entries);
        }
      }
    }
  }

  /** No two answers fit one path: `SourceExactly` determines the source, a directory's name aside. */
  lemma OneAnswer(root: Node, target: AbsPath, home: AbsPath, a: Source, b: Source)
    requires Distinct(root) && root.DirNode?
    requires AnswerFor(root, target, home, a) && AnswerFor(root, target, home, b)
    ensures if a.Folder? then b.Folder? && forall f :: f in a.found <==> f in b.found else a == b
  {
    forall m, n | At(root, target, m) && At(root, target, n)
      ensures m == n
    {
      AtUnique(root, target, m, n);
    }
    assert target == [] ==> !exists content :: At(root, target, FileNode(content));
  }
}
