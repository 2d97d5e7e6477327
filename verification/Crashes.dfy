/**
 The watcher of module `Queue` when it crashes and restarts at "0", at any points.
 Main results: `LostOnlyByTrimming`, `SurvivesCrashes` and `ExactlyOnce`.
 */
module Crashes {
  import opened Basics
  import opened Kanbans
  import opened Streams
  import opened Queue

  // ---- At least once: either mode, any deletions failing

  /** What the watcher has passed it has delivered, if it decodes. */
  ghost predicate HeadDone(s: State) {
    && Sorted(s.appended) && (forall e | e in s.entries :: e in s.appended) && |s.entries| <= MAX_LEN
    && match s.watcher.pc
       case AtHead => PassedBy(s, s.watcher.prevId)
       case Removing(e) => PassedBy(s, s.watcher.prevId) && e in s.appended
       case Delivering(e) => e in s.appended && e.id == s.watcher.prevId
  }

  ghost predicate PassedBy(s: State, id: nat) {
    forall e | e in s.appended && e.id == id && e.kanban.Some? :: e in s.delivered
  }

  lemma LastHasLargestId(es: seq<Entry>, e: Entry)
    requires Sorted(es) && e in es
    ensures 0 < e.id <= LastId(es)
  {
    var i :| 0 <= i < |es| && es[i] == e;
    assert i == |es| - 1 || es[i].id < es[|es| - 1].id;
  }

  lemma HeadDoneAppend(s: State, id: nat, kanban: Option<StatusKanban>)
    requires HeadDone(s) && id > LastId(s.appended) && s.watcher.prevId <= LastId(s.appended)
    ensures HeadDone(Step(s, Append(id, kanban)).value)
  {
    var e := Entry(id, kanban);
    var t := Step(s, Append(id, kanban)).value;
    SortedAppend(s.appended, e);
    assert PassedBy(s, s.watcher.prevId) ==> PassedBy(t, s.watcher.prevId);
  }

  lemma {:induction false} NextIsThere(es: seq<Entry>, id: nat)
    ensures FirstAfter(es, id).Some? ==> FirstAfter(es, id).value in es
    decreases |es|
  {
    if es != [] {
      NextIsThere(es[1..], id);
    }
  }

  lemma HeadDoneAccept(s: State, w: Watcher, e: Entry)
    requires HeadDone(s) && e in s.appended
    ensures HeadDone(s.(watcher := Accept(w, e)))
  {
    forall x | x in s.appended && x.id == e.id
      ensures x == e
    {
      SameId(s.appended, x, e);
    }
  }

  lemma HeadDoneStep(s: State, ev: Event)
    requires HeadDone(s) && s.watcher.prevId <= LastId(s.appended) && Step(s, ev).Some?
    ensures HeadDone(Step(s, ev).value) && Step(s, ev).value.watcher.prevId <= LastId(Step(s, ev).value.appended)
  {
    match ev {
      case Append(id, kanban) => HeadDoneAppend(s, id, kanban);
      case Read =>
        var e := FirstAfter(s.entries, s.watcher.prevId).value;
        NextIsThere(s.entries, s.watcher.prevId);
        LastHasLargestId(s.appended, e);
        HeadDoneAccept(s, s.watcher, e);
      case Remove(ok) =>
        var e := s.watcher.pc.next;
        LastHasLargestId(s.appended, e);
        HeadDoneAccept(s, s.watcher, e);
        WithoutKeeps(s.entries, s.watcher.prevId);
        WithoutShorter(s.entries, s.watcher.prevId);
      case Deliver => HeadDoneDeliver(s);
      case Crash => HeadDoneCrash(s);
    }
  }

  lemma HeadDoneDeliver(s: State)
    requires HeadDone(s) && s.watcher.pc.Delivering?
    ensures HeadDone(Step(s, Deliver).value)
  {
    forall x | x in s.appended && x.id == s.watcher.prevId
      ensures x == s.watcher.pc.entry
    {
      SameId(s.appended, x, s.watcher.pc.entry);
    }
  }

  lemma HeadDoneCrash(s: State)
    requires HeadDone(s)
    ensures HeadDone(Step(s, Crash).value)
  {
    forall x | x in s.appended
      ensures x.id != 0
    {
      LastHasLargestId(s.appended, x);
    }
  }

  lemma {:induction false} WithoutShorter(es: seq<Entry>, id: nat)
    ensures |Without(es, id)| <= |es|
    decreases |es|
  {
    if es != [] {
      WithoutShorter(es[1..], id);
    }
  }

  lemma {:induction false} HeadDoneRun(deletes: bool, evs: seq<Event>)
    requires Exec(Init(deletes), evs).Some?
    ensures var s := Exec(Init(deletes), evs).value;
            HeadDone(s) && s.watcher.prevId <= LastId(s.appended)
    decreases |evs|
  {
    if evs != [] {
      HeadDoneRun(deletes, evs[..|evs| - 1]);
      HeadDoneStep(Exec(Init(deletes), evs[..|evs| - 1]).value, evs[|evs| - 1]);
    }
  }

  /** The `k`-th event is an append that trims `e` as the oldest of 50 entries. */
  ghost predicate TrimmedAt(deletes: bool, evs: seq<Event>, k: nat, e: Entry)
    requires k < |evs|
  {
    && evs[k].Append? && Exec(Init(deletes), evs[..k]).Some?
    && var entries := Exec(Init(deletes), evs[..k]).value.entries;
       |entries| == MAX_LEN && e == entries[0]
  }

  lemma NewestKept(es: seq<Entry>, i: nat)
    requires i < |es| && |es| - i <= MAX_LEN
    ensures es[i] in Trim(es)
  {
    assert es[i] == Trim(es)[i - (|es| - |Trim(es)|)];
  }

  lemma TrimsOldest(es: seq<Entry>, e: Entry, gone: Entry)
    requires |es| <= MAX_LEN && gone in es + [e] && gone !in Trim(es + [e])
    ensures |es| == MAX_LEN && gone == es[0]
  {
    var all := es + [e];
    var i :| 0 <= i < |all| && all[i] == gone;
    if |all| - i <= MAX_LEN {
      NewestKept(all, i);
    }
  }

  /** An entry leaves the stream in one step only when it is trimmed or has been delivered. */
  lemma LeavesDelivered(s: State, ev: Event, e: Entry)
    requires HeadDone(s) && Step(s, ev).Some? && e.kanban.Some?
    requires e in s.entries || (ev.Append? && e == Entry(ev.id, ev.kanban))
    requires e !in Step(s, ev).value.entries && e !in s.delivered
    ensures ev.Append? && |s.entries| == MAX_LEN && e == s.entries[0]
  {
    match ev {
      case Append(id, kanban) => TrimsOldest(s.entries, Entry(id, kanban), e);
      case Remove(ok) => WithoutKeeps(s.entries, s.watcher.prevId);
      case _ =>
    }
  }

  /**
   At least once: in either mode, with any interleaving, any deletions failing and crashes anywhere, a kanban that was
   appended is still in the stream or was delivered, unless an append trimmed it as the oldest of 50.
   */
  lemma {:induction false} LostOnlyByTrimming(deletes: bool, evs: seq<Event>, e: Entry)
    requires Exec(Init(deletes), evs).Some?
    requires var s := Exec(Init(deletes), evs).value;
             e in s.appended && e.kanban.Some? && e !in s.entries && e !in s.delivered
    ensures exists k | 0 <= k < |evs| :: TrimmedAt(deletes, evs, k, e)
    decreases |evs|
  {
    if evs != [] {
      var before, ev := evs[..|evs| - 1], evs[|evs| - 1];
      var s := Exec(Init(deletes), before).value;
      HeadDoneRun(deletes, before);
      if e in s.appended && e !in s.entries {
        LostOnlyByTrimming(deletes, before, e);
        var k :| 0 <= k < |before| && TrimmedAt(deletes, before, k, e);
        assert before[..k] == evs[..k];
        assert TrimmedAt(deletes, evs, k, e);
      } else {
        LeavesDelivered(s, ev, e);
        assert TrimmedAt(deletes, evs, |evs| - 1, e);
      }
    }
  }

  // ---- Repetitions: delete mode

  /** The entries, with immediate repetitions collapsed. */
  function Collapse(es: seq<Entry>): seq<Entry> {
    if |es| <= 1 then es
    else
      var before := Collapse(es[..|es| - 1]);
      if es[|es| - 1] == es[|es| - 2] then before else before + [es[|es| - 1]]
  }

  lemma {:induction false} CollapseLast(es: seq<Entry>)
    requires es != []
    ensures Collapse(es) != [] && Collapse(es)[|Collapse(es)| - 1] == es[|es| - 1]
    decreases |es|
  {
    if |es| > 1 {
      CollapseLast(es[..|es| - 1]);
    }
  }

  lemma CollapseSnoc(es: seq<Entry>, e: Entry)
    ensures Collapse(es + [e])
         == if es != [] && es[|es| - 1] == e then Collapse(es) else Collapse(es) + [e]
  {
    assert (es + [e])[..|es|] == es;
  }

  /** Splitting the history at the first entry not done. */
  lemma NextDone(es: seq<Entry>, d: nat)
    requires Sorted(es) && d < |es|
    ensures es[d..] == [es[d]] + es[d + 1..]
    ensures Decodable(es[..d + 1]) == Decodable(es[..d]) + if es[d].kanban.Some? then [es[d]] else []
    ensures LastId(es[..d + 1]) == es[d].id > 0 && LastId(es[..d]) < es[d].id
    ensures d > 0 ==> es[d - 1] != es[d]
    ensures es[d] !in es[..d]
  {
    assert es[..d + 1][..d] == es[..d];
  }

  lemma {:induction false} DecodableFrom(es: seq<Entry>, e: Entry)
    ensures e in Decodable(es) <==> e in es && e.kanban.Some?
    decreases |es|
  {
    if es != [] {
      DecodableFrom(es[..|es| - 1], e);
      assert e in es <==> e in es[..|es| - 1] || e == es[|es| - 1];
    }
  }

  lemma {:induction false} CollapseMembers(es: seq<Entry>, e: Entry)
    ensures e in Collapse(es) <==> e in es
    decreases |es|
  {
    if |es| > 1 {
      CollapseMembers(es[..|es| - 1], e);
      assert e in es <==> e in es[..|es| - 1] || e == es[|es| - 1];
    }
  }

  /** The kanban delivered last is still in the stream, where a restarted watcher finds it. */
  predicate LeftBehind(s: State) {
    s.delivered != [] && s.delivered[|s.delivered| - 1] in s.entries
  }

  /** Since the last delivery a crash found the kanban delivered last still in the stream. */
  predicate Stale(evs: seq<Event>) {
    evs != [] &&
    var before := evs[..|evs| - 1];
    match evs[|evs| - 1]
    case Deliver => false
    case Crash => Stale(before) || (Exec(Init(true), before).Some? && LeftBehind(Exec(Init(true), before).value))
    case _ => Stale(before)
  }

  /** The deliveries made while stale. */
  function Repeats(evs: seq<Event>): nat {
    if evs == [] then 0
    else Repeats(evs[..|evs| - 1]) + if evs[|evs| - 1].Deliver? && Stale(evs[..|evs| - 1]) then 1 else 0
  }

  /** `d` entries are done (delivered or not decodable); of those only the last may still be in the stream. */
  ghost predicate InStream(s: State, kept: seq<Entry>, d: nat) {
    && d <= |s.appended| && Sorted(s.appended) && s.watcher.deletes
    && s.entries == kept + s.appended[d..]
    && (kept == [] || (d > 0 && kept == [s.appended[d - 1]]))
  }

  predicate Decodes(kept: seq<Entry>) {
    kept != [] && kept[0].kanban.Some?
  }

  /** What the watcher is up to: a stale one is on its way to deliver again what is left of the entries done. */
  ghost predicate AtStage(s: State, kept: seq<Entry>, d: nat, stale: bool)
    requires d <= |s.appended|
  {
    var w := s.watcher;
    && (w.pc.Delivering? ==> w.prevId == w.pc.entry.id && w.pc.entry.kanban.Some?)
    && if stale then
         Decodes(kept) &&
         match w.pc
         case AtHead => w.prevId == 0
         case Removing(e) => w.prevId == 0 && e == kept[0]
         case Delivering(e) => e == kept[0]
       else
         match w.pc
         case AtHead => if w.prevId == 0 then !Decodes(kept) else w.prevId == LastId(s.appended[..d])
         case Removing(e) =>
           if w.prevId == 0 && kept != [] then e == kept[0] && !Decodes(kept)
           else d < |s.appended| && e == s.appended[d] && (w.prevId == 0 || w.prevId == LastId(s.appended[..d]))
         case Delivering(e) => d < |s.appended| && e == s.appended[d] && kept == []
  }

  ghost predicate InOrder(s: State, d: nat)
    requires d <= |s.appended|
  {
    Collapse(s.delivered) == Decodable(s.appended[..d])
  }

  ghost predicate Safe(s: State, kept: seq<Entry>, d: nat, stale: bool) {
    InStream(s, kept, d) && AtStage(s, kept, d, stale) && InOrder(s, d)
  }

  lemma SafeAppend(s: State, kept: seq<Entry>, d: nat, stale: bool, id: nat, kanban: Option<StatusKanban>)
    requires Safe(s, kept, d, stale) && id > LastId(s.appended) && |s.entries| < MAX_LEN
    ensures Safe(Step(s, Append(id, kanban)).value, kept, d, stale)
  {
    var e := Entry(id, kanban);
    SortedAppend(s.appended, e);
    assert (s.appended + [e])[..d] == s.appended[..d];
    assert (s.appended + [e])[d..] == s.appended[d..] + [e];
    assert kept + s.appended[d..] + [e] == kept + (s.appended[d..] + [e]);
  }

  /** What the next read finds: after a restart the entry left over, otherwise the first one not done. */
  lemma NextRead(s: State, kept: seq<Entry>, d: nat)
    requires InStream(s, kept, d) && (s.watcher.prevId == 0 || s.watcher.prevId == LastId(s.appended[..d]))
    ensures FirstAfter(s.entries, s.watcher.prevId)
         == if s.watcher.prevId == 0 && kept != [] then Some(kept[0])
            else if d < |s.appended| then Some(s.appended[d])
            else None
  {
    var prevId := s.watcher.prevId;
    if prevId == 0 && kept != [] {
      assert s.entries[0] == s.appended[d - 1];
    } else {
      FirstAfterSkips(kept, s.appended[d..], prevId);
      if 0 < d < |s.appended| {
        assert s.appended[..d][d - 1].id < s.appended[d].id;
      }
    }
  }

  lemma SafeRead(s: State, kept: seq<Entry>, d: nat, stale: bool)
    requires Safe(s, kept, d, stale) && Step(s, Read).Some?
    ensures Safe(Step(s, Read).value, kept, d, stale)
  {
    NextRead(s, kept, d);
  }

  lemma RemovedNothing(s: State, kept: seq<Entry>, d: nat)
    requires InStream(s, kept, d) && s.watcher.prevId == 0
    ensures Without(s.entries, 0) == s.entries
  {
    forall i | 0 <= i < |s.entries|
      ensures s.entries[i].id != 0
    {
      assert s.entries[i] in s.appended;
    }
    WithoutNothing(s.entries, 0);
  }

  lemma RemovedKept(s: State, kept: seq<Entry>, d: nat)
    requires InStream(s, kept, d) && s.watcher.prevId == LastId(s.appended[..d]) != 0
    ensures Without(s.entries, s.watcher.prevId) == s.appended[d..]
  {
    var id := s.watcher.prevId;
    WithoutAppend(kept, s.appended[d..], id);
    assert s.appended[..d][d - 1] == s.appended[d - 1];
    assert forall i | 0 <= i < |s.appended[d..]| :: s.appended[d..][i] == s.appended[d + i];
    WithoutNothing(s.appended[d..], id);
    if kept != [] {
      assert kept[1..] == [];
    }
    assert Without(kept, id) == [];
  }

  lemma Removed(s: State, kept: seq<Entry>, d: nat)
    requires InStream(s, kept, d) && s.watcher.pc.Removing?
    requires s.watcher.prevId == 0 || s.watcher.prevId == LastId(s.appended[..d])
    ensures Without(s.entries, s.watcher.prevId) == if s.watcher.prevId == 0 then s.entries else s.appended[d..]
  {
    if s.watcher.prevId == 0 {
      RemovedNothing(s, kept, d);
    } else {
      RemovedKept(s, kept, d);
    }
  }

  /** Reading again what is left over, the watcher removes nothing. */
  lemma SafeRemoveAgain(s: State, kept: seq<Entry>, d: nat, stale: bool)
    requires Safe(s, kept, d, stale) && s.watcher.pc.Removing? && s.watcher.prevId == 0 && kept != []
    ensures Safe(Step(s, Remove(true)).value, kept, d, stale)
  {
    RemovedNothing(s, kept, d);
    assert s.appended[..d][d - 1] == s.appended[d - 1];
  }

  /** The first entry not done: the one before it leaves the stream. */
  lemma SafeRemoveNew(s: State, kept: seq<Entry>, d: nat) returns (kept': seq<Entry>, d': nat)
    requires Safe(s, kept, d, false) && s.watcher.pc.Removing? && !(s.watcher.prevId == 0 && kept != [])
    ensures Safe(Step(s, Remove(true)).value, kept', d', false)
  {
    var e, t := s.appended[d], Step(s, Remove(true)).value;
    assert t.entries == s.appended[d..] by {
      Removed(s, kept, d);
      assert kept == [] ==> s.entries == s.appended[d..];
    }
    if e.kanban.Some? {
      kept', d' := [], d;
      assert s.appended[d..] == [] + s.appended[d..];
    } else {
      kept', d' := [e], d + 1;
      NextDone(s.appended, d);
    }
  }

  lemma SafeRemove(s: State, kept: seq<Entry>, d: nat, stale: bool) returns (kept': seq<Entry>, d': nat)
    requires Safe(s, kept, d, stale) && s.watcher.pc.Removing?
    ensures Safe(Step(s, Remove(true)).value, kept', d', stale)
  {
    if s.watcher.prevId == 0 && kept != [] {
      SafeRemoveAgain(s, kept, d, stale);
      kept', d' := kept, d;
    } else {
      kept', d' := SafeRemoveNew(s, kept, d);
    }
  }

  /** The kanban delivered last is the last decodable entry done. */
  lemma LastDelivered(s: State, d: nat)
    requires 0 < d <= |s.appended| && s.appended[d - 1].kanban.Some? && InOrder(s, d)
    ensures s.delivered != [] && s.delivered[|s.delivered| - 1] == s.appended[d - 1]
  {
    var done := Decodable(s.appended[..d]);
    assert done == Decodable(s.appended[..d][..d - 1]) + [s.appended[d - 1]];
    CollapseLast(s.delivered);
  }

  /** An entry not done has not been delivered. */
  lemma NotYetDelivered(s: State, d: nat)
    requires d < |s.appended| && Sorted(s.appended) && InOrder(s, d)
    ensures s.appended[d] !in s.delivered
  {
    NextDone(s.appended, d);
    DecodableFrom(s.appended[..d], s.appended[d]);
    CollapseMembers(s.delivered, s.appended[d]);
  }

  lemma SafeDeliverNew(s: State, kept: seq<Entry>, d: nat)
    requires Safe(s, kept, d, false) && s.watcher.pc.Delivering?
    ensures Safe(Step(s, Deliver).value, [s.appended[d]], d + 1, false)
    ensures |Collapse(Step(s, Deliver).value.delivered)| == |Collapse(s.delivered)| + 1
  {
    var e := s.appended[d];
    NotYetDelivered(s, d);
    CollapseSnoc(s.delivered, e);
    NextDone(s.appended, d);
    assert s.entries == s.appended[d..];
  }

  lemma SafeDeliverAgain(s: State, kept: seq<Entry>, d: nat)
    requires Safe(s, kept, d, true) && s.watcher.pc.Delivering?
    ensures Safe(Step(s, Deliver).value, kept, d, false)
    ensures Collapse(Step(s, Deliver).value.delivered) == Collapse(s.delivered)
  {
    var e := kept[0];
    assert Collapse(s.delivered + [e]) == Collapse(s.delivered) by {
      LastDelivered(s, d);
      CollapseSnoc(s.delivered, e);
    }
    assert s.appended[..d][d - 1] == s.appended[d - 1];
  }

  /** The kanban delivered last is in the stream exactly when the one entry left over decodes. */
  lemma LeftBehindIsKept(s: State, kept: seq<Entry>, d: nat)
    requires InStream(s, kept, d) && InOrder(s, d)
    ensures LeftBehind(s) <==> Decodes(kept)
  {
    if Decodes(kept) {
      LastDelivered(s, d);
      assert s.entries[0] == kept[0];
    }
    if LeftBehind(s) {
      var e := s.delivered[|s.delivered| - 1];
      CollapseMembers(s.delivered, e);
      DecodableFrom(s.appended[..d], e);
      forall i | d <= i < |s.appended|
        ensures s.appended[i] != e
      {
        var j :| 0 <= j < d && s.appended[..d][j] == e;
        assert s.appended[j].id < s.appended[i].id;
      }
      assert e in kept;
    }
  }

  lemma SafeCrash(s: State, kept: seq<Entry>, d: nat, stale: bool)
    requires Safe(s, kept, d, stale)
    ensures Safe(Step(s, Crash).value, kept, d, stale || LeftBehind(s))
  {
    LeftBehindIsKept(s, kept, d);
  }

  // ---- Runs

  /** Deletions succeed, and no append trims. Crashes happen at any point. */
  predicate Untrimmed(evs: seq<Event>) {
    evs == [] ||
    var before, ev := Exec(Init(true), evs[..|evs| - 1]), evs[|evs| - 1];
    && Untrimmed(evs[..|evs| - 1])
    && before.Some?
    && (ev.Append? ==> |before.value.entries| < MAX_LEN)
    && (ev.Remove? ==> ev.ok)
  }

  lemma SafeStep(s: State, kept: seq<Entry>, d: nat, stale: bool, ev: Event) returns (kept': seq<Entry>, d': nat)
    requires Safe(s, kept, d, stale) && Step(s, ev).Some?
    requires (ev.Append? ==> |s.entries| < MAX_LEN) && (ev.Remove? ==> ev.ok)
    ensures Safe(Step(s, ev).value, kept', d', if ev.Deliver? then false else stale || (ev.Crash? && LeftBehind(s)))
    ensures |Collapse(Step(s, ev).value.delivered)| == |Collapse(s.delivered)| + if ev.Deliver? && !stale then 1 else 0
  {
    kept', d' := kept, d;
    match ev {
      case Append(id, kanban) => SafeAppend(s, kept, d, stale, id, kanban);
      case Read => SafeRead(s, kept, d, stale);
      case Remove(_) => kept', d' := SafeRemove(s, kept, d, stale);
      case Deliver =>
        if stale {
          SafeDeliverAgain(s, kept, d);
        } else {
          SafeDeliverNew(s, kept, d);
          kept', d' := [s.appended[d]], d + 1;
        }
      case Crash => SafeCrash(s, kept, d, stale);
    }
  }

  lemma {:induction false} SafeRun(evs: seq<Event>) returns (kept: seq<Entry>, d: nat)
    requires Untrimmed(evs) && Exec(Init(true), evs).Some?
    ensures var s := Exec(Init(true), evs).value;
            && Safe(s, kept, d, Stale(evs))
            && |s.delivered| == |Collapse(s.delivered)| + Repeats(evs)
            && Repeats(evs) + (if Stale(evs) then 1 else 0) <= s.crashes
    decreases |evs|
  {
    if evs == [] {
      kept, d := [], 0;
    } else {
      var before := evs[..|evs| - 1];
      kept, d := SafeRun(before);
      kept, d := SafeStep(Exec(Init(true), before).value, kept, d, Stale(before), evs[|evs| - 1]);
    }
  }

  lemma SafeOrder(s: State, kept: seq<Entry>, d: nat, stale: bool)
    requires Safe(s, kept, d, stale)
    ensures Collapse(s.delivered) <= Decodable(s.appended)
  {
    DecodablePrefix(s.appended, d);
  }

  lemma SafeNothingLost(s: State, kept: seq<Entry>, d: nat, stale: bool, e: Entry)
    requires Safe(s, kept, d, stale) && e in s.appended && e !in s.entries && e.kanban.Some?
    ensures e in s.delivered
  {
    assert s.appended == s.appended[..d] + s.appended[d..];
    DecodableFrom(s.appended[..d], e);
    CollapseMembers(s.delivered, e);
  }

  lemma SafeHead(s: State, kept: seq<Entry>, d: nat, stale: bool, e: Entry)
    requires Safe(s, kept, d, stale) && s.watcher.pc.AtHead? && e in s.entries && e.id <= s.watcher.prevId
    ensures e.id == s.watcher.prevId
  {
    forall i | d <= i < |s.appended|
      ensures s.appended[i].id > s.watcher.prevId
    {
      assert d > 0 ==> s.appended[..d][d - 1].id < s.appended[i].id;
    }
    assert e in kept;
    assert s.appended[..d][d - 1] == e;
  }

  ghost predicate OnlyHeadLeft(s: State) {
    s.watcher.pc.AtHead? ==> forall e | e in s.entries && e.id <= s.watcher.prevId :: e.id == s.watcher.prevId
  }

  ghost predicate NothingLost(s: State) {
    forall e | e in s.appended && e !in s.entries :: e.kanban.None? || e in s.delivered
  }

  /**
   At least once, and nearly exactly once: in delete mode, whatever the interleaving and wherever the watcher crashes
   and restarts at "0",
   - the delivered kanbans, immediate repetitions collapsed, are the decodable entries appended first, in order,
   - there are at most as many repetitions as crashes,
   - an appended entry is missing from the stream only after it was delivered or found not to decode,
   - at the loop head, of the entries up to the cursor only the one at the cursor can be left.
   */
  lemma SurvivesCrashes(evs: seq<Event>)
    requires Untrimmed(evs) && Exec(Init(true), evs).Some?
    ensures var s := Exec(Init(true), evs).value;
            && Collapse(s.delivered) <= Decodable(s.appended)
            && |s.delivered| <= |Collapse(s.delivered)| + s.crashes
            && NothingLost(s) && OnlyHeadLeft(s)
  {
    var s := Exec(Init(true), evs).value;
    var kept, d := SafeRun(evs);
    SafeOrder(s, kept, d, Stale(evs));
    forall e | e in s.appended && e !in s.entries && e.kanban.Some?
      ensures e in s.delivered
    {
      SafeNothingLost(s, kept, d, Stale(evs), e);
    }
    forall e | e in s.entries && e.id <= s.watcher.prevId && s.watcher.pc.AtHead?
      ensures e.id == s.watcher.prevId
    {
      SafeHead(s, kept, d, Stale(evs), e);
    }
  }

  // ---- Exactly once

  predicate Distinct(es: seq<Entry>) {
    forall i, j | 0 <= i < j < |es| :: es[i] != es[j]
  }

  lemma {:induction false} CollapseDistinct(es: seq<Entry>)
    ensures |Collapse(es)| <= |es| && (|Collapse(es)| == |es| ==> Collapse(es) == es)
    ensures Distinct(es) ==> Collapse(es) == es
    decreases |es|
  {
    if |es| > 1 {
      var front := es[..|es| - 1];
      CollapseDistinct(front);
      assert front[|front| - 1] == es[|es| - 2];
      assert es == front + [es[|es| - 1]];
      assert Distinct(es) ==> Distinct(front);
    }
  }

  lemma {:induction false} DecodableDistinct(es: seq<Entry>)
    requires Sorted(es)
    ensures Distinct(Decodable(es))
    decreases |es|
  {
    if es != [] {
      var front, last := es[..|es| - 1], es[|es| - 1];
      DecodableDistinct(front);
      DecodableFrom(front, last);
      assert last !in front;
    }
  }

  /** Every stale delivery counts. */
  lemma {:induction false} RepeatsSome(evs: seq<Event>)
    ensures Repeats(evs) == 0 <==> forall k | 0 <= k < |evs| && evs[k].Deliver? :: !Stale(evs[..k])
    decreases |evs|
  {
    if evs != [] {
      var before := evs[..|evs| - 1];
      RepeatsSome(before);
      assert forall k | 0 <= k < |before| :: before[k] == evs[k] && before[..k] == evs[..k];
    }
  }

  /** What a restart would find first is a kanban already delivered exactly when the last delivery is still in the stream. */
  lemma FirstIsDelivered(evs: seq<Event>)
    requires Untrimmed(evs) && Exec(Init(true), evs).Some? && Exec(Init(true), evs).value.entries != []
    ensures var s := Exec(Init(true), evs).value;
            s.entries[0] in s.delivered <==> LeftBehind(s)
  {
    var s := Exec(Init(true), evs).value;
    var kept, d := SafeRun(evs);
    LeftBehindIsKept(s, kept, d);
    if kept == [] {
      assert s.entries == s.appended[d..];
      NotYetDelivered(s, d);
    } else {
      CollapseMembers(s.delivered, kept[0]);
      DecodableFrom(s.appended[..d], kept[0]);
      assert s.appended[..d][d - 1] == kept[0];
    }
  }

  lemma HeldDelivered(s: State, kept: seq<Entry>, d: nat, stale: bool)
    requires Safe(s, kept, d, stale) && s.watcher.pc.Delivering?
    ensures s.watcher.pc.entry in s.delivered <==> stale
    ensures stale ==> s.delivered != [] && s.delivered[|s.delivered| - 1] == s.watcher.pc.entry
  {
    if stale {
      LastDelivered(s, d);
    } else {
      NotYetDelivered(s, d);
    }
  }

  /** The kanban in the watcher's hands was delivered before exactly when the watcher is stale, and then it is the last one. */
  lemma DeliversAgain(evs: seq<Event>)
    requires Untrimmed(evs) && Exec(Init(true), evs).Some? && Exec(Init(true), evs).value.watcher.pc.Delivering?
    ensures var s := Exec(Init(true), evs).value;
            && (s.watcher.pc.entry in s.delivered <==> Stale(evs))
            && (Stale(evs) ==> s.delivered != [] && s.delivered[|s.delivered| - 1] == s.watcher.pc.entry)
  {
    var kept, d := SafeRun(evs);
    HeldDelivered(Exec(Init(true), evs).value, kept, d, Stale(evs));
  }

  /**
   Exactly once, exactly when: in delete mode no kanban is delivered twice if and only if no delivery follows a crash
   that came between the delivery before it and the removal of that delivery's entry. The number of repeated
   deliveries is the number of such deliveries.
   */
  lemma ExactlyOnce(evs: seq<Event>)
    requires Untrimmed(evs) && Exec(Init(true), evs).Some?
    ensures var s := Exec(Init(true), evs).value;
            && (Distinct(s.delivered) <==> forall k | 0 <= k < |evs| && evs[k].Deliver? :: !Stale(evs[..k]))
            && |s.delivered| - |Collapse(s.delivered)| == Repeats(evs)
  {
    var s := Exec(Init(true), evs).value;
    var kept, d := SafeRun(evs);
    CollapseDistinct(s.delivered);
    DecodableDistinct(s.appended[..d]);
    RepeatsSome(evs);
  }

  lemma OneMoreEvent(evs: seq<Event>, ev: Event, s: State)
    requires Untrimmed(evs) && Exec(Init(true), evs) == Some(s)
    requires (ev.Append? ==> |s.entries| < MAX_LEN) && (ev.Remove? ==> ev.ok)
    ensures Untrimmed(evs + [ev]) && Exec(Init(true), evs + [ev]) == Step(s, ev)
  {
    assert (evs + [ev])[..|evs|] == evs;
  }

  /** The state once a restarted watcher has delivered the only entry. */
  function Delivered(s: State, e: Entry): State {
    s.(watcher := Watcher(true, e.id, AtHead), delivered := s.delivered + [e], attempts := s.attempts + [0])
  }

  lemma RestartedDelivers(evs: seq<Event>, s: State, e: Entry) returns (evs': seq<Event>)
    requires Untrimmed(evs) && Exec(Init(true), evs) == Some(s)
    requires s.entries == [e] && s.watcher == Watcher(true, 0, AtHead) && e.kanban.Some? && e.id > 0
    ensures Untrimmed(evs') && Exec(Init(true), evs') == Some(Delivered(s, e))
  {
    WithoutNothing([e], 0);
    var read := s.(watcher := Watcher(true, 0, Removing(e)));
    var removed := s.(watcher := Watcher(true, e.id, Delivering(e)), attempts := s.attempts + [0]);
    OneMoreEvent(evs, Read, s);
    OneMoreEvent(evs + [Read], Remove(true), read);
    OneMoreEvent(evs + [Read] + [Remove(true)], Deliver, removed);
    evs' := evs + [Read] + [Remove(true)] + [Deliver];
  }

  /** Exactly once is too much to ask: a crash right after a delivery delivers the entry again. */
  lemma DeliveredTwice(k: StatusKanban) returns (evs: seq<Event>)
    ensures Untrimmed(evs) && Exec(Init(true), evs).Some?
    ensures Exec(Init(true), evs).value.delivered == [Entry(1, Some(k)), Entry(1, Some(k))]
  {
    var e := Entry(1, Some(k));
    var appended := Init(true).(entries := [e], appended := [e]);
    OneMoreEvent([], Append(1, Some(k)), Init(true));
    assert Step(Init(true), Append(1, Some(k))) == Some(appended) by {
      assert [] + [e] == [e];
    }
    evs := RestartedDelivers([] + [Append(1, Some(k))], appended, e);
    var restarted := Step(Delivered(appended, e), Crash).value;
    OneMoreEvent(evs, Crash, Delivered(appended, e));
    evs := RestartedDelivers(evs + [Crash], restarted, e);
    assert Delivered(restarted, e).delivered == [e, e];
  }
}
