/**
 Several watchers on one stream, such as the kanban server's deleting watcher and the replicator's, which only reads.
 Main results: `MissedEntries` and `OneIsQueue`.
 */
module Watchers {
  import opened Basics
  import opened Kanbans
  import opened Streams
  import opened Queue

  /** A watcher with what it has read and delivered since it (re)started. */
  datatype Reader = Reader(w: Watcher, seen: seq<Entry>, delivered: seq<Entry>)

  datatype Shared = Shared(entries: seq<Entry>, readers: seq<Reader>, appended: seq<Entry>)

  datatype Move =
    | Appends(id: nat, kanban: Option<StatusKanban>)
    | Reads(who: nat)
    | Removes(who: nat, ok: bool)
    | Delivers(who: nat)
    | Restarts(who: nat)

  function Fresh(deletes: bool): Reader {
    Reader(Watcher(deletes, 0, AtHead), [], [])
  }

  function Start(deletes: seq<bool>): Shared {
    Shared([], seq(|deletes|, i requires 0 <= i < |deletes| => Fresh(deletes[i])), [])
  }

  function SetReader(m: Shared, i: nat, r: Reader): Shared
    requires i < |m.readers|
  {
    m.(readers := m.readers[i := r])
  }

  /** The stream as one watcher sees it: a state of the machine of module `Queue`. */
  function Alone(m: Shared, r: Reader): State {
    State(m.entries, r.w, m.appended, r.delivered, [], 0)
  }

  /** The watcher after its step, which it makes as it would alone. */
  function After(m: Shared, r: Reader, ev: Event): Reader
    requires Step(Alone(m, r), ev).Some?
  {
    var s := Step(Alone(m, r), ev).value;
    Reader(s.watcher, if ev.Read? then r.seen + [FirstAfter(m.entries, r.w.prevId).value] else r.seen, s.delivered)
  }

  function Steps(m: Shared, i: nat, ev: Event): Option<Shared> {
    if i >= |m.readers| || Step(Alone(m, m.readers[i]), ev).None? then None
    else Some(SetReader(m, i, After(m, m.readers[i], ev)).(entries := Step(Alone(m, m.readers[i]), ev).value.entries))
  }

  /** One step of some watcher or of a writer, or `None` when it is not possible. */
  function Moved(m: Shared, move: Move): Option<Shared> {
    match move
    case Appends(id, kanban) =>
      (match Step(Alone(m, Fresh(false)), Append(id, kanban))
       case None => None
       case Some(s) => Some(m.(entries := s.entries, appended := s.appended)))
    case Reads(i) => Steps(m, i, Read)
    case Removes(i, ok) => Steps(m, i, Remove(ok))
    case Delivers(i) => Steps(m, i, Deliver)
    case Restarts(i) =>
      if i >= |m.readers| then None
      else Some(SetReader(m, i, Fresh(m.readers[i].w.deletes)))
  }

  function Run(m: Shared, moves: seq<Move>): Option<Shared> {
    if moves == [] then Some(m)
    else
      match Run(m, moves[..|moves| - 1])
      case None => None
      case Some(t) => Moved(t, moves[|moves| - 1])
  }

  // ---- Each watcher as it would be alone

  /** The event that a move is for the watcher that makes it. */
  function EventOf(move: Move): Event {
    match move
    case Appends(id, kanban) => Append(id, kanban)
    case Reads(_) => Read
    case Removes(_, ok) => Remove(ok)
    case Delivers(_) => Deliver
    case Restarts(_) => Crash
  }

  /** The watcher that makes the move; writers make none. */
  function Mover(move: Move): Option<nat> {
    match move
    case Appends(_, _) => None
    case Reads(i) => Some(i)
    case Removes(i, _) => Some(i)
    case Delivers(i) => Some(i)
    case Restarts(i) => Some(i)
  }

  /** A watcher can move when it could alone, does what it would alone, and changes nothing of the others but the stream. */
  lemma MovesAlone(m: Shared, move: Move)
    requires Mover(move).Some? && Mover(move).value < |m.readers|
    ensures var i := Mover(move).value;
            var s, m' := Step(Alone(m, m.readers[i]), EventOf(move)), Moved(m, move);
            && (m'.Some? <==> s.Some?)
            && (m'.Some? ==>
                  && m'.value.entries == s.value.entries && m'.value.appended == m.appended
                  && |m'.value.readers| == |m.readers| && m'.value.readers[i].w == s.value.watcher
                  && m'.value.readers[i].delivered == (if move.Restarts? then [] else s.value.delivered)
                  && forall j | 0 <= j < |m.readers| && j != i :: m'.value.readers[j] == m.readers[j])
  {
  }

  function EventsOf(moves: seq<Move>): seq<Event> {
    seq(|moves|, n requires 0 <= n < |moves| => EventOf(moves[n]))
  }

  /** The machine with one watcher is that of module `Queue`; its history goes back beyond the last restart. */
  ghost predicate SameAsAlone(m: Shared, s: State) {
    && |m.readers| == 1 && m.entries == s.entries && m.appended == s.appended && m.readers[0].w == s.watcher
    && IsSuffix(m.readers[0].delivered, s.delivered)
  }

  predicate IsSuffix(tail: seq<Entry>, all: seq<Entry>) {
    |tail| <= |all| && all[|all| - |tail|..] == tail
  }

  lemma {:induction false} OneIsQueue(deletes: bool, moves: seq<Move>)
    requires forall n | 0 <= n < |moves| :: Mover(moves[n]) == None || Mover(moves[n]) == Some(0)
    ensures var m, s := Run(Start([deletes]), moves), Exec(Init(deletes), EventsOf(moves));
            (m.Some? <==> s.Some?) && (m.Some? ==> SameAsAlone(m.value, s.value))
    decreases |moves|
  {
    if moves != [] {
      var front, move := moves[..|moves| - 1], moves[|moves| - 1];
      OneIsQueue(deletes, front);
      assert EventsOf(moves)[..|moves| - 1] == EventsOf(front);
      var m, s := Run(Start([deletes]), front), Exec(Init(deletes), EventsOf(front));
      if m.Some? {
        OneMove(m.value, s.value, move);
      }
    }
  }

  lemma SuffixStays(all: seq<Entry>, tail: seq<Entry>, more: seq<Entry>)
    requires IsSuffix(tail, all)
    ensures IsSuffix(tail + more, all + more) && IsSuffix([], all)
  {
    assert all[|all|..] == [];
  }

  /** What the step delivers. */
  function NowDelivered(w: Watcher, ev: Event): seq<Entry> {
    if ev.Deliver? && w.pc.Delivering? then [w.pc.entry] else []
  }

  lemma StepDelivers(s: State, ev: Event)
    requires Step(s, ev).Some?
    ensures Step(s, ev).value.delivered == s.delivered + NowDelivered(s.watcher, ev)
  {
  }

  lemma OneStep(m: Shared, s: State, move: Move)
    requires SameAsAlone(m, s) && Mover(move) == Some(0) && !move.Restarts?
    ensures var m', s' := Moved(m, move), Step(s, EventOf(move));
            (m'.Some? <==> s'.Some?) && (m'.Some? ==> SameAsAlone(m'.value, s'.value))
  {
    var r, ev := m.readers[0], EventOf(move);
    MovesAlone(m, move);
    if Step(s, ev).Some? {
      StepDelivers(s, ev);
      StepDelivers(Alone(m, r), ev);
      SuffixStays(s.delivered, r.delivered, NowDelivered(r.w, ev));
    }
  }

  lemma OneMove(m: Shared, s: State, move: Move)
    requires SameAsAlone(m, s) && (Mover(move) == None || Mover(move) == Some(0))
    ensures var m', s' := Moved(m, move), Step(s, EventOf(move));
            (m'.Some? <==> s'.Some?) && (m'.Some? ==> SameAsAlone(m'.value, s'.value))
  {
    match move {
      case Appends(_, _) =>
      case Restarts(_) => SuffixStays(s.delivered, m.readers[0].delivered, []);
      case _ => OneStep(m, s, move);
    }
  }

  // ---- The invariant

  ghost predicate Accounted(m: Shared) {
    && Sorted(m.appended) && Sorted(m.entries) && |m.entries| <= MAX_LEN
    && Within(m.entries, m.appended)
  }

  predicate Within(es: seq<Entry>, all: seq<Entry>) {
    forall e | e in es :: e in all
  }

  /** Of the entries in the stream all those up to `id` have been seen. */
  predicate SawUpTo(seen: seq<Entry>, entries: seq<Entry>, id: nat) {
    forall e | e in entries && e.id <= id :: e in seen
  }

  /** The watcher has read everything up to its cursor except entries that are not in the stream. */
  ghost predicate Follows(m: Shared, r: Reader) {
    && Sorted(r.seen) && LastId(r.seen) == Cursor(r.w)
    && Within(r.seen, m.appended)
    && SawUpTo(r.seen, m.entries, Cursor(r.w))
    && (r.w.pc.Removing? ==> r.w.prevId < Cursor(r.w) && r.w.deletes && r.w.pc.next in r.seen)
    && r.delivered + Pending(r.w) == Decodable(r.seen)
  }

  ghost predicate AllFollow(m: Shared) {
    forall i | 0 <= i < |m.readers| :: Follows(m, m.readers[i])
  }

  ghost predicate Inv(m: Shared) {
    Accounted(m) && AllFollow(m)
  }

  // ---- Every move keeps it

  lemma LastIsLargest(es: seq<Entry>, e: Entry)
    requires Sorted(es) && e in es
    ensures e.id <= LastId(es)
  {
    var i :| 0 <= i < |es| && es[i] == e;
    assert i == |es| - 1 || es[i].id < es[|es| - 1].id;
  }

  /** A watcher that did not move still follows when entries leave the stream or later ones arrive. */
  lemma StillFollows(m: Shared, m': Shared, r: Reader)
    requires Follows(m, r)
    requires forall e | e in m.appended :: e in m'.appended
    requires forall e | e in m'.entries && e !in m.entries :: e.id > Cursor(r.w)
    ensures Follows(m', r)
  {
  }

  lemma AllStillFollow(m: Shared, m': Shared)
    requires AllFollow(m) && m'.readers == m.readers
    requires forall e | e in m.appended :: e in m'.appended
    requires forall e, i | e in m'.entries && e !in m.entries && 0 <= i < |m.readers| :: e.id > Cursor(m.readers[i].w)
    ensures AllFollow(m')
  {
    forall i | 0 <= i < |m.readers|
      ensures Follows(m', m.readers[i])
    {
      StillFollows(m, m', m.readers[i]);
    }
  }

  lemma Replaced(m: Shared, i: nat, r: Reader)
    requires Inv(m) && i < |m.readers| && Follows(m, r)
    ensures Inv(SetReader(m, i, r))
  {
    var m' := SetReader(m, i, r);
    forall j | 0 <= j < |m'.readers|
      ensures Follows(m', m'.readers[j])
    {
      StillFollows(m, m', if j == i then r else m.readers[j]);
    }
  }

  lemma CursorReached(m: Shared, r: Reader)
    requires Accounted(m) && Follows(m, r)
    ensures Cursor(r.w) <= LastId(m.appended)
  {
    if r.seen != [] {
      assert r.seen[|r.seen| - 1] in r.seen;
      LastIsLargest(m.appended, r.seen[|r.seen| - 1]);
    }
  }

  lemma TrimmedStays(es: seq<Entry>)
    ensures forall e | e in Trim(es) :: e in es
    ensures |es| <= MAX_LEN + 1 ==> forall e | e in es && e !in Trim(es) :: |es| == MAX_LEN + 1 && e == es[0]
    ensures Sorted(es) ==> Sorted(Trim(es))
  {
  }

  lemma SortedEntries(m: Shared, e: Entry)
    requires Accounted(m) && e.id > LastId(m.appended)
    ensures Sorted(m.entries + [e])
  {
    forall i | 0 <= i < |m.entries|
      ensures m.entries[i].id < e.id
    {
      assert m.entries[i] in m.appended;
      LastIsLargest(m.appended, m.entries[i]);
    }
  }

  lemma AppendsKeeps(m: Shared, id: nat, kanban: Option<StatusKanban>)
    requires Inv(m) && id > LastId(m.appended)
    ensures Inv(Moved(m, Appends(id, kanban)).value)
  {
    var m' := Moved(m, Appends(id, kanban)).value;
    var e := Entry(id, kanban);
    SortedAppend(m.appended, e);
    SortedEntries(m, e);
    TrimmedStays(m.entries + [e]);
    forall i | 0 <= i < |m.readers|
      ensures id > Cursor(m.readers[i].w)
    {
      CursorReached(m, m.readers[i]);
    }
    AllStillFollow(m, m');
  }

  lemma SeenMore(seen: seq<Entry>, all: seq<Entry>, e: Entry)
    requires Sorted(seen) && e.id > LastId(seen) && Within(seen, all) && e in all
    ensures Sorted(seen + [e]) && LastId(seen + [e]) == e.id && Within(seen + [e], all)
    ensures Decodable(seen + [e]) == Decodable(seen) + if e.kanban.Some? then [e] else []
  {
    SortedAppend(seen, e);
    assert (seen + [e])[..|seen|] == seen;
  }

  /** The oldest entry after the cursor leaves no gap. */
  lemma SawNext(seen: seq<Entry>, entries: seq<Entry>, id: nat)
    requires Sorted(entries) && SawUpTo(seen, entries, id) && FirstAfter(entries, id).Some?
    ensures SawUpTo(seen + [FirstAfter(entries, id).value], entries, FirstAfter(entries, id).value.id)
  {
    var e := FirstAfter(entries, id).value;
    ReadsOldest(entries, id);
    forall x | x in entries && x.id <= e.id
      ensures x in seen + [e]
    {
      if x.id > id {
        SameId(entries, x, e);
      }
    }
  }

  /** What reading does to the watcher, field by field. */
  lemma AfterRead(m: Shared, r: Reader)
    requires Step(Alone(m, r), Read).Some?
    ensures r.w.pc.AtHead? && FirstAfter(m.entries, r.w.prevId).Some?
    ensures var e, r' := FirstAfter(m.entries, r.w.prevId).value, After(m, r, Read);
            && r'.seen == r.seen + [e] && r'.delivered == r.delivered && Cursor(r'.w) == e.id
            && Pending(r'.w) == (if e.kanban.Some? then [e] else [])
            && (r'.w.pc.Removing? ==> r'.w.deletes && r'.w.prevId == r.w.prevId && r'.w.pc.next == e)
  {
  }

  lemma ReadFollows(m: Shared, r: Reader)
    requires Accounted(m) && Follows(m, r) && Step(Alone(m, r), Read).Some?
    ensures Follows(m, After(m, r, Read))
  {
    AfterRead(m, r);
    ReadKeepsUp(m, r, After(m, r, Read), FirstAfter(m.entries, r.w.prevId).value);
  }

  lemma ReadKeepsUp(m: Shared, r: Reader, r': Reader, e: Entry)
    requires Accounted(m) && Follows(m, r) && r.w.pc.AtHead? && FirstAfter(m.entries, r.w.prevId) == Some(e)
    requires r'.seen == r.seen + [e] && r'.delivered == r.delivered && Cursor(r'.w) == e.id
    requires Pending(r'.w) == if e.kanban.Some? then [e] else []
    requires r'.w.pc.Removing? ==> r'.w.deletes && r'.w.prevId == r.w.prevId && r'.w.pc.next == e
    ensures Follows(m, r')
  {
    ReadsOldest(m.entries, r.w.prevId);
    SeenMore(r.seen, m.appended, e);
    SawNext(r.seen, m.entries, r.w.prevId);
    assert r.delivered + [] == r.delivered;
  }

  lemma ReadsKeeps(m: Shared, i: nat)
    requires Inv(m) && Moved(m, Reads(i)).Some?
    ensures Inv(Moved(m, Reads(i)).value)
  {
    var r' := After(m, m.readers[i], Read);
    ReadFollows(m, m.readers[i]);
    Replaced(m, i, r');
    assert Moved(m, Reads(i)).value == SetReader(m, i, r');
  }

  lemma RemovesKeeps(m: Shared, i: nat, ok: bool)
    requires Inv(m) && Moved(m, Removes(i, ok)).Some?
    ensures Inv(Moved(m, Removes(i, ok)).value)
  {
    var r := m.readers[i];
    var r' := After(m, r, Remove(ok));
    assert Follows(m, r');
    Replaced(m, i, r');
    WithoutKeeps(m.entries, r.w.prevId);
    WithoutSorted(m.entries, r.w.prevId);
    AllStillFollow(SetReader(m, i, r'), Moved(m, Removes(i, ok)).value);
  }

  lemma SortedCons(e: Entry, es: seq<Entry>)
    requires Sorted(es) && e.id > 0 && forall x | x in es :: e.id < x.id
    ensures Sorted([e] + es)
  {
  }

  lemma {:induction false} WithoutSorted(es: seq<Entry>, id: nat)
    requires Sorted(es)
    ensures Sorted(Without(es, id)) && |Without(es, id)| <= |es|
    decreases |es|
  {
    if es != [] {
      WithoutSorted(es[1..], id);
      WithoutKeeps(es[1..], id);
      SortedCons(es[0], Without(es[1..], id));
    }
  }

  lemma DeliversKeeps(m: Shared, i: nat)
    requires Inv(m) && Moved(m, Delivers(i)).Some?
    ensures Inv(Moved(m, Delivers(i)).value)
  {
    var r := m.readers[i];
    var r' := After(m, r, Deliver);
    assert r'.delivered + [] == r.delivered + Pending(r.w);
    Replaced(m, i, r');
  }

  lemma FreshFollows(m: Shared, deletes: bool)
    requires Sorted(m.entries)
    ensures Follows(m, Fresh(deletes))
  {
  }

  lemma RestartsKeeps(m: Shared, i: nat)
    requires Inv(m) && i < |m.readers|
    ensures Inv(Moved(m, Restarts(i)).value)
  {
    var r := Fresh(m.readers[i].w.deletes);
    assert Moved(m, Restarts(i)).value == SetReader(m, i, r);
    assert Follows(m, r) by {
      FreshFollows(m, m.readers[i].w.deletes);
    }
    Replaced(m, i, r);
  }

  lemma MovedKeeps(m: Shared, move: Move)
    requires Inv(m) && Moved(m, move).Some?
    ensures Inv(Moved(m, move).value)
  {
    match move {
      case Appends(id, kanban) => AppendsKeeps(m, id, kanban);
      case Reads(i) => ReadsKeeps(m, i);
      case Removes(i, ok) => RemovesKeeps(m, i, ok);
      case Delivers(i) => DeliversKeeps(m, i);
      case Restarts(i) => RestartsKeeps(m, i);
    }
  }

  lemma InvStart(deletes: seq<bool>)
    ensures Inv(Start(deletes))
  {
    forall i | 0 <= i < |deletes|
      ensures Follows(Start(deletes), Fresh(deletes[i]))
    {
    }
  }

  lemma {:induction false} InvRun(deletes: seq<bool>, moves: seq<Move>)
    requires Run(Start(deletes), moves).Some?
    ensures Inv(Run(Start(deletes), moves).value)
    decreases |moves|
  {
    InvStart(deletes);
    if moves != [] {
      InvRun(deletes, moves[..|moves| - 1]);
      MovedKeeps(Run(Start(deletes), moves[..|moves| - 1]).value, moves[|moves| - 1]);
    }
  }

  // ---- How entries leave the stream

  /** In `m`, the move trims `e` as the oldest of 50, or a watcher removes it after reading it and a later one. */
  ghost predicate Leaves(m: Shared, move: Move, e: Entry) {
    e in m.entries &&
    match move
    case Appends(_, _) => |m.entries| == MAX_LEN && e == m.entries[0]
    case Removes(i, ok) =>
      && ok && i < |m.readers| && m.readers[i].w.deletes && e in m.readers[i].seen
      && exists later | later in m.readers[i].seen :: later.id > e.id
    case _ => false
  }

  lemma LeavesByAppend(m: Shared, id: nat, kanban: Option<StatusKanban>, e: Entry)
    requires Accounted(m) && e in m.entries && e !in Trim(m.entries + [Entry(id, kanban)])
    ensures Leaves(m, Appends(id, kanban), e)
  {
    TrimmedStays(m.entries + [Entry(id, kanban)]);
    assert e in m.entries + [Entry(id, kanban)];
  }

  lemma LeavesByRemoval(m: Shared, i: nat, ok: bool, e: Entry)
    requires i < |m.readers| && Follows(m, m.readers[i]) && m.readers[i].w.pc.Removing? && ok
    requires e in m.entries && e !in Without(m.entries, m.readers[i].w.prevId)
    ensures Leaves(m, Removes(i, ok), e)
  {
    WithoutKeeps(m.entries, m.readers[i].w.prevId);
    assert m.readers[i].w.pc.next.id > e.id;
  }

  lemma LeavesNow(m: Shared, move: Move, e: Entry)
    requires Inv(m) && Moved(m, move).Some? && e in m.entries && e !in Moved(m, move).value.entries
    ensures Leaves(m, move, e)
  {
    match move {
      case Appends(id, kanban) => LeavesByAppend(m, id, kanban, e);
      case Removes(i, ok) => LeavesByRemoval(m, i, ok, e);
      case _ =>
    }
  }

  /** Some move of the run took the entry out of the stream. */
  ghost predicate LeftDuring(deletes: seq<bool>, moves: seq<Move>, e: Entry) {
    exists k | 0 <= k < |moves| :: Leaving(deletes, moves, k, e)
  }

  ghost predicate Leaving(deletes: seq<bool>, moves: seq<Move>, k: nat, e: Entry)
    requires k < |moves|
  {
    Run(Start(deletes), moves[..k]).Some? && Leaves(Run(Start(deletes), moves[..k]).value, moves[k], e)
  }

  lemma NewestStays(es: seq<Entry>, e: Entry)
    ensures e in Trim(es + [e])
  {
    var all := Trim(es + [e]);
    assert all[|all| - 1] == e;
  }

  lemma LeftEarlier(deletes: seq<bool>, moves: seq<Move>, e: Entry)
    requires moves != [] && LeftDuring(deletes, moves[..|moves| - 1], e)
    ensures LeftDuring(deletes, moves, e)
  {
    var before := moves[..|moves| - 1];
    var k :| 0 <= k < |before| && Leaving(deletes, before, k, e);
    assert before[..k] == moves[..k];
    assert Leaving(deletes, moves, k, e);
  }

  /** An entry that a move brings is there after it. */
  lemma NewIsThere(m: Shared, move: Move, e: Entry)
    requires Moved(m, move).Some? && e in Moved(m, move).value.appended && e !in m.appended
    ensures e in Moved(m, move).value.entries
  {
    NewestStays(m.entries, e);
  }

  lemma {:induction false} MissingLeft(deletes: seq<bool>, moves: seq<Move>, e: Entry)
    requires Run(Start(deletes), moves).Some?
    requires e in Run(Start(deletes), moves).value.appended && e !in Run(Start(deletes), moves).value.entries
    ensures LeftDuring(deletes, moves, e)
    decreases |moves|
  {
    if moves != [] {
      var before, move := moves[..|moves| - 1], moves[|moves| - 1];
      var m := Run(Start(deletes), before).value;
      InvRun(deletes, before);
      if e !in m.appended {
        NewIsThere(m, move, e);
      } else if e in m.entries {
        LeavesNow(m, move, e);
        assert Leaving(deletes, moves, |moves| - 1, e);
      } else {
        MissingLeft(deletes, before, e);
        LeftEarlier(deletes, moves, e);
      }
    }
  }

  /**
   Any number of watchers on one stream, deleting or not, in every interleaving with writers, failed deletions and
   restarts: since its last (re)start each watcher has read entries of the appended sequence in strictly increasing ID
   order, so none twice, and has delivered those that decode. An entry up to its cursor that it has not read was
   trimmed as the oldest of 50, or was removed by a deleting watcher that had read it and a later one.
   */
  lemma MissedEntries(deletes: seq<bool>, moves: seq<Move>, i: nat)
    requires Run(Start(deletes), moves).Some? && i < |Run(Start(deletes), moves).value.readers|
    ensures var m := Run(Start(deletes), moves).value;
            var r := m.readers[i];
            && Sorted(r.seen) && (forall e | e in r.seen :: e in m.appended)
            && r.delivered + Pending(r.w) == Decodable(r.seen)
            && forall e | e in m.appended && e.id <= Cursor(r.w) && e !in r.seen :: LeftDuring(deletes, moves, e)
  {
    var m := Run(Start(deletes), moves).value;
    InvRun(deletes, moves);
    assert Follows(m, m.readers[i]);
    forall e | e in m.appended && e.id <= Cursor(m.readers[i].w) && e !in m.readers[i].seen
      ensures LeftDuring(deletes, moves, e)
    {
      MissingLeft(deletes, moves, e);
    }
  }

  /** Nothing but trimming and its own deletions takes an entry from a watcher when no other watcher deletes. */
  lemma AloneMissesOnlyTrimmed(deletes: seq<bool>, moves: seq<Move>, i: nat, e: Entry)
    requires Run(Start(deletes), moves).Some? && i < |deletes|
    requires forall j | 0 <= j < |deletes| && j != i :: !deletes[j]
    requires forall move | move in moves :: move != Restarts(i)
    requires var m := Run(Start(deletes), moves).value;
             i < |m.readers| && e in m.appended && e.id <= Cursor(m.readers[i].w) && e !in m.readers[i].seen
    ensures exists k | 0 <= k < |moves| :: moves[k].Appends? && Leaving(deletes, moves, k, e)
  {
    MissedEntries(deletes, moves, i);
    var k :| 0 <= k < |moves| && Leaving(deletes, moves, k, e);
    if moves[k].Removes? {
      OnlyDeleter(deletes, moves[..k], moves[k], i, e);
      SeenStays(deletes, moves, k, i, e);
    }
  }

  /** With one deleting watcher at most, what is removed has been seen by it. */
  lemma OnlyDeleter(deletes: seq<bool>, before: seq<Move>, move: Move, i: nat, e: Entry)
    requires Run(Start(deletes), before).Some? && i < |deletes|
    requires forall j | 0 <= j < |deletes| && j != i :: !deletes[j]
    requires move.Removes? && Leaves(Run(Start(deletes), before).value, move, e)
    ensures i < |Run(Start(deletes), before).value.readers| && e in Run(Start(deletes), before).value.readers[i].seen
  {
    SameReaders(deletes, before);
  }

  lemma {:induction false} SameReaders(deletes: seq<bool>, moves: seq<Move>)
    requires Run(Start(deletes), moves).Some?
    ensures var m := Run(Start(deletes), moves).value;
            |m.readers| == |deletes| && forall i | 0 <= i < |deletes| :: m.readers[i].w.deletes == deletes[i]
    decreases |moves|
  {
    if moves != [] {
      SameReaders(deletes, moves[..|moves| - 1]);
    }
  }

  lemma {:induction false} SeenStays(deletes: seq<bool>, moves: seq<Move>, k: nat, i: nat, e: Entry)
    requires Run(Start(deletes), moves).Some? && k <= |moves| && Run(Start(deletes), moves[..k]).Some?
    requires i < |Run(Start(deletes), moves[..k]).value.readers| && e in Run(Start(deletes), moves[..k]).value.readers[i].seen
    requires forall move | move in moves :: move != Restarts(i)
    ensures i < |Run(Start(deletes), moves).value.readers| && e in Run(Start(deletes), moves).value.readers[i].seen
    decreases |moves|
  {
    if k == |moves| {
      assert moves[..k] == moves;
    } else {
      var before := moves[..|moves| - 1];
      assert before[..k] == moves[..k];
      forall move | move in before ensures move != Restarts(i) {
        assert move in moves;
      }
      SeenStays(deletes, before, k, i, e);
      assert moves[|moves| - 1] in moves;
    }
  }
}
