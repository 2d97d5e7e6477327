/**
 `WatchKanban` beside writers that append at any time, with crashes: one watcher on one stream, as a step machine and as the
 loop itself. Main results: `DeliversInOrder` for runs without a crash, `WatcherIsQueue` and `Drains` for the loop;
 module `Crashes` has the runs with crashes.
 */
module Queue {
  import opened Basics
  import opened Kanbans
  import opened Streams

  /** Where the watcher is: at the loop head, about to delete its previous entry, or handing an entry over. */
  datatype Pc = AtHead | Removing(next: Entry) | Delivering(entry: Entry)

  datatype Watcher = Watcher(deletes: bool, prevId: nat, pc: Pc)

  /** `appended`, `delivered`, `attempts` (at deletions) and `crashes` record the history; the program holds only the rest. */
  datatype State = State(
    entries: seq<Entry>,
    watcher: Watcher,
    appended: seq<Entry>,
    delivered: seq<Entry>,
    attempts: seq<nat>,
    crashes: nat)

  datatype Event =
    | Append(id: nat, kanban: Option<StatusKanban>)
    | Read
    | Remove(ok: bool)
    | Deliver
    | Crash

  function Init(deletes: bool): State {
    State([], Watcher(deletes, 0, AtHead), [], [], [], 0)
  }

  /** The cursor moves to the entry read; an entry that does not decode is passed over. */
  function Accept(w: Watcher, e: Entry): Watcher {
    w.(prevId := e.id, pc := if e.kanban.Some? then Delivering(e) else AtHead)
  }

  /** One step, or `None` when the event is not possible. A restarted watcher starts again at "0". */
  function Step(s: State, ev: Event): Option<State> {
    var w := s.watcher;
    match ev
    case Append(id, kanban) =>
      if id <= LastId(s.appended) then None
      else Some(s.(entries := Trim(s.entries + [Entry(id, kanban)]), appended := s.appended + [Entry(id, kanban)]))
    case Read =>
      var next := FirstAfter(s.entries, w.prevId);
      if !w.pc.AtHead? || next.None? then None
      else Some(s.(watcher := if w.deletes then w.(pc := Removing(next.value)) else Accept(w, next.value)))
    case Remove(ok) =>
      if !w.pc.Removing? then None
      else Some(s.(entries := if ok then Without(s.entries, w.prevId) else s.entries,
                   watcher := Accept(w, w.pc.next), attempts := s.attempts + [w.prevId]))
    case Deliver =>
      if !w.pc.Delivering? then None
      else Some(s.(watcher := w.(pc := AtHead), delivered := s.delivered + [w.pc.entry]))
    case Crash =>
      Some(s.(watcher := Watcher(w.deletes, 0, AtHead), crashes := s.crashes + 1))
  }

  function Exec(s: State, evs: seq<Event>): Option<State> {
    if evs == [] then Some(s)
    else
      match Exec(s, evs[..|evs| - 1])
      case None => None
      case Some(t) => Step(t, evs[|evs| - 1])
  }

  function Decodable(es: seq<Entry>): seq<Entry> {
    if es == [] then []
    else Decodable(es[..|es| - 1]) + if es[|es| - 1].kanban.Some? then [es[|es| - 1]] else []
  }

  // ---- One uninterrupted watcher: FIFO

  /** How many entries the watcher has read, counting the one in hand. */
  function Cursor(w: Watcher): nat {
    if w.pc.Removing? then w.pc.next.id else w.prevId
  }

  function Pending(w: Watcher): seq<Entry> {
    match w.pc
    case AtHead => []
    case Removing(e) => if e.kanban.Some? then [e] else []
    case Delivering(e) => [e]
  }

  ghost predicate AllUpTo(es: seq<Entry>, id: nat) {
    forall i | 0 <= i < |es| :: es[i].id <= id
  }

  /** The stream still holds every unread entry: `entries == kept + appended[n..]`, with `n` entries read. */
  ghost predicate Intact(s: State, kept: seq<Entry>, n: nat) {
    && n <= |s.appended| && Sorted(s.appended)
    && s.entries == kept + s.appended[n..]
    && AllUpTo(kept, Cursor(s.watcher))
    && Cursor(s.watcher) == LastId(s.appended[..n])
    && s.watcher.prevId <= Cursor(s.watcher)
    && (s.watcher.pc.Removing? ==> n > 0 && s.watcher.pc.next == s.appended[n - 1])
    && s.delivered + Pending(s.watcher) == Decodable(s.appended[..n])
  }

  /** The number of entries the watcher has not read. */
  function Unread(s: State): nat {
    UnreadFrom(s.appended, Cursor(s.watcher))
  }

  function UnreadFrom(es: seq<Entry>, id: nat): nat {
    if es == [] then 0 else (if es[0].id > id then 1 else 0) + UnreadFrom(es[1..], id)
  }

  lemma UnreadCounts(es: seq<Entry>, n: nat)
    requires Sorted(es) && n <= |es|
    ensures UnreadFrom(es, LastId(es[..n])) == |es| - n
  {
    UnreadSplit(es, n, LastId(es[..n]));
  }

  lemma {:induction false} UnreadSplit(es: seq<Entry>, n: nat, id: nat)
    requires n <= |es|
    requires forall i | 0 <= i < n :: es[i].id <= id
    requires forall i | n <= i < |es| :: es[i].id > id
    ensures UnreadFrom(es, id) == |es| - n
    decreases |es|
  {
    if es != [] {
      UnreadSplit(es[1..], if n > 0 then n - 1 else 0, id);
    }
  }

  lemma SortedAppend(es: seq<Entry>, e: Entry)
    requires Sorted(es) && e.id > LastId(es)
    ensures Sorted(es + [e])
  {
  }

  /** An append keeps the unread entries exactly when no more than 50 are unread after it. */
  lemma AppendKeepsUnread(s: State, kept: seq<Entry>, n: nat, e: Entry)
    requires Intact(s, kept, n) && e.id > LastId(s.appended)
    ensures (exists left :: Trim(s.entries + [e]) == left + (s.appended + [e])[n..])
       <==> |s.appended| + 1 - n <= 50
  {
    var unread := (s.appended + [e])[n..];
    assert s.entries + [e] == kept + unread;
    if |unread| <= MAX_LEN {
      var over := if |kept + unread| > MAX_LEN then |kept + unread| - MAX_LEN else 0;
      assert Trim(s.entries + [e]) == kept[over..] + unread;
    }
  }

  lemma AppendStep(s: State, kept: seq<Entry>, n: nat, id: nat, kanban: Option<StatusKanban>) returns (kept': seq<Entry>)
    requires Intact(s, kept, n) && id > LastId(s.appended) && |s.appended| + 1 - n <= MAX_LEN
    ensures Intact(Step(s, Append(id, kanban)).value, kept', n)
  {
    var e := Entry(id, kanban);
    var unread := (s.appended + [e])[n..];
    assert s.entries + [e] == kept + unread;
    var over := if |kept + unread| > MAX_LEN then |kept + unread| - MAX_LEN else 0;
    kept' := kept[over..];
    assert Trim(s.entries + [e]) == kept' + unread;
    SortedAppend(s.appended, e);
    assert (s.appended + [e])[..n] == s.appended[..n];
  }

  lemma ReadStep(s: State, kept: seq<Entry>, n: nat)
    requires Intact(s, kept, n) && Step(s, Read).Some?
    ensures n < |s.appended| && Intact(Step(s, Read).value, kept + [s.appended[n]], n + 1)
  {
    var unread := s.appended[n..];
    FirstAfterSkips(kept, unread, s.watcher.prevId);
    assert unread != [];
    assert s.appended[..n + 1][..n] == s.appended[..n];
    if n > 0 {
      assert s.appended[..n][n - 1].id < s.appended[n].id;
    }
    assert s.entries == kept + [s.appended[n]] + s.appended[n + 1..];
  }

  lemma RemoveStep(s: State, kept: seq<Entry>, n: nat, ok: bool)
    requires Intact(s, kept, n) && s.watcher.pc.Removing?
    ensures Intact(Step(s, Remove(ok)).value, if ok then Without(kept, s.watcher.prevId) else kept, n)
  {
    var id := s.watcher.prevId;
    if ok {
      WithoutAppend(kept, s.appended[n..], id);
      assert forall i | 0 <= i < |s.appended[n..]| :: s.appended[n..][i] == s.appended[n + i];
      WithoutNothing(s.appended[n..], id);
      WithoutKeeps(kept, id);
      forall i | 0 <= i < |Without(kept, id)|
        ensures Without(kept, id)[i].id <= Cursor(s.watcher)
      {
        assert Without(kept, id)[i] in kept;
      }
    }
  }

  /** No crash, and never more than 50 unread entries. */
  predicate Calm(deletes: bool, evs: seq<Event>) {
    evs == [] ||
    (&& Calm(deletes, evs[..|evs| - 1])
     && !evs[|evs| - 1].Crash?
     && Exec(Init(deletes), evs).Some? && Unread(Exec(Init(deletes), evs).value) <= MAX_LEN)
  }

  lemma IntactStep(s: State, kept: seq<Entry>, n: nat, ev: Event) returns (kept': seq<Entry>, n': nat)
    requires Intact(s, kept, n) && Step(s, ev).Some? && !ev.Crash?
    requires Unread(Step(s, ev).value) <= MAX_LEN
    ensures Intact(Step(s, ev).value, kept', n')
  {
    kept', n' := kept, n;
    match ev {
      case Append(id, kanban) =>
        UnreadAfter(s, kept, n, Entry(id, kanban));
        kept' := AppendStep(s, kept, n, id, kanban);
      case Read =>
        ReadStep(s, kept, n);
        kept', n' := kept + [s.appended[n]], n + 1;
      case Remove(ok) =>
        RemoveStep(s, kept, n, ok);
        kept' := if ok then Without(kept, s.watcher.prevId) else kept;
      case Deliver => DeliverStep(s, kept, n);
    }
  }

  lemma DeliverStep(s: State, kept: seq<Entry>, n: nat)
    requires Intact(s, kept, n) && s.watcher.pc.Delivering?
    ensures Intact(Step(s, Deliver).value, kept, n)
  {
    assert s.delivered + [s.watcher.pc.entry] + [] == s.delivered + Pending(s.watcher);
  }

  lemma {:induction false} CalmRun(deletes: bool, evs: seq<Event>) returns (kept: seq<Entry>, n: nat)
    requires Calm(deletes, evs) && Exec(Init(deletes), evs).Some?
    ensures Intact(Exec(Init(deletes), evs).value, kept, n)
    decreases |evs|
  {
    if evs == [] {
      kept, n := [], 0;
    } else {
      kept, n := CalmRun(deletes, evs[..|evs| - 1]);
      kept, n := IntactStep(Exec(Init(deletes), evs[..|evs| - 1]).value, kept, n, evs[|evs| - 1]);
    }
  }

  lemma UnreadAfter(s: State, kept: seq<Entry>, n: nat, e: Entry)
    requires Intact(s, kept, n) && e.id > LastId(s.appended)
    ensures UnreadFrom(s.appended + [e], Cursor(s.watcher)) == |s.appended| + 1 - n
  {
    var all := s.appended + [e];
    SortedAppend(s.appended, e);
    assert all[..n] == s.appended[..n];
    UnreadCounts(all, n);
  }

  lemma {:induction false} DecodablePrefix(es: seq<Entry>, n: nat)
    requires n <= |es|
    ensures Decodable(es[..n]) <= Decodable(es)
    decreases |es|
  {
    if n < |es| {
      DecodablePrefix(es[..|es| - 1], n);
      assert es[..|es| - 1][..n] == es[..n];
    } else {
      assert es[..n] == es;
    }
  }

  /**
   FIFO: with one watcher, in either mode, whatever deletions fail, and in every interleaving with the writers that
   never leaves more than 50 entries unread, the kanbans delivered are the decodable entries appended first, in
   order, without loss or repetition -- up to the one still in the watcher's hands.
   */
  lemma DeliversInOrder(deletes: bool, evs: seq<Event>)
    requires Calm(deletes, evs) && Exec(Init(deletes), evs).Some?
    ensures var s := Exec(Init(deletes), evs).value;
            && s.delivered <= Decodable(s.appended)
            && exists n | 0 <= n <= |s.appended| ::
                 && s.delivered + Pending(s.watcher) == Decodable(s.appended[..n])
                 && forall e | e in s.appended[n..] :: e in s.entries
  {
    var s := Exec(Init(deletes), evs).value;
    var kept, n := CalmRun(deletes, evs);
    DecodablePrefix(s.appended, n);
    assert s.delivered <= s.delivered + Pending(s.watcher);
  }

  // ---- The loop of internal/kanban/redis.go, round by round

  /** Entries that others append, each an ID gap after the last one. */
  type Arrivals = seq<(nat, Option<StatusKanban>)>

  /**
   What others append before the read, the deletion and the delivery of one round, whether the deletion succeeds, and
   where the watcher stops, if it does.
   */
  datatype Round = Round(
    beforeRead: Arrivals,
    beforeRemoval: Arrivals,
    beforeDelivery: Arrivals,
    removes: bool,
    stop: Stop)

  datatype Stop = Runs | StopsAfterRead | StopsAfterRemoval

  function ArriveOne(s: State, arrival: (nat, Option<StatusKanban>)): State {
    Step(s, Append(LastId(s.appended) + 1 + arrival.0, arrival.1)).value
  }

  function Arrive(s: State, arrivals: Arrivals): State {
    if arrivals == [] then s else ArriveOne(Arrive(s, arrivals[..|arrivals| - 1]), arrivals[|arrivals| - 1])
  }

  /** The rest of a round that has read an entry: delete the previous one, deliver. */
  function FinishRound(r: State, round: Round): State {
    if round.stop.StopsAfterRead? then r
    else
      var removed := if r.watcher.pc.Removing? then Step(r, Remove(round.removes)).value else r;
      var d := Arrive(removed, round.beforeDelivery);
      if d.watcher.pc.Delivering? && !round.stop.StopsAfterRemoval? then Step(d, Deliver).value else d
  }

  /** With nothing to read the loop blocks, which leaves the state as it is until the next round's arrivals. */
  function AfterRound(s: State, round: Round): State {
    var a := Arrive(s, round.beforeRead);
    match Step(a, Read)
    case None => a
    case Some(r) => FinishRound(Arrive(r, round.beforeRemoval), round)
  }

  predicate AllRun(rounds: seq<Round>) {
    rounds == [] || (AllRun(rounds[..|rounds| - 1]) && rounds[|rounds| - 1].stop.Runs?)
  }

  /** One life of the watcher: rounds up to the first in which it stops. */
  function AfterLife(s: State, rounds: seq<Round>): State {
    if rounds == [] then s
    else
      var t := AfterLife(s, rounds[..|rounds| - 1]);
      if AllRun(rounds[..|rounds| - 1]) then AfterRound(t, rounds[|rounds| - 1]) else t
  }

  /** A watcher restarted after every life. */
  function AfterLives(s: State, lives: seq<seq<Round>>): State {
    if lives == [] then s
    else Step(AfterLife(AfterLives(s, lives[..|lives| - 1]), lives[|lives| - 1]), Crash).value
  }

  // ---- The rounds are steps of the machine

  lemma {:induction false} ExecAppend(s: State, a: seq<Event>, b: seq<Event>)
    requires Exec(s, a).Some?
    ensures Exec(s, a + b) == Exec(Exec(s, a).value, b)
    decreases |b|
  {
    if b == [] {
      assert a + b == a;
    } else {
      assert (a + b)[..|a + b| - 1] == a + b[..|b| - 1];
      ExecAppend(s, a, b[..|b| - 1]);
    }
  }

  lemma ExecMore(s: State, evs: seq<Event>, ev: Event)
    requires Exec(s, evs).Some?
    ensures Exec(s, evs + [ev]) == Step(Exec(s, evs).value, ev)
  {
    assert (evs + [ev])[..|evs|] == evs;
  }

  /** The steps lead from one state to the other, without a crash. */
  ghost predicate Leads(s: State, evs: seq<Event>, t: State) {
    Exec(s, evs) == Some(t) && Crash !in evs
  }

  lemma LeadsOn(s: State, evs: seq<Event>, t: State, ev: Event)
    requires Leads(s, evs, t) && Step(t, ev).Some? && !ev.Crash?
    ensures Leads(s, evs + [ev], Step(t, ev).value)
  {
    ExecMore(s, evs, ev);
  }

  lemma {:induction false} ArriveLeads(s: State, before: seq<Event>, t: State, arrivals: Arrivals) returns (evs: seq<Event>)
    requires Leads(s, before, t)
    ensures Leads(s, evs, Arrive(t, arrivals))
    decreases |arrivals|
  {
    if arrivals == [] {
      evs := before;
    } else {
      var front, last := arrivals[..|arrivals| - 1], arrivals[|arrivals| - 1];
      var u := Arrive(t, front);
      evs := ArriveLeads(s, before, t, front);
      LeadsOn(s, evs, u, Append(LastId(u.appended) + 1 + last.0, last.1));
      evs := evs + [Append(LastId(u.appended) + 1 + last.0, last.1)];
    }
  }

  lemma FinishLeads(s: State, before: seq<Event>, r: State, round: Round) returns (evs: seq<Event>)
    requires Leads(s, before, r)
    ensures Leads(s, evs, FinishRound(r, round))
  {
    evs := before;
    if !round.stop.StopsAfterRead? {
      var removed := r;
      if r.watcher.pc.Removing? {
        LeadsOn(s, evs, r, Remove(round.removes));
        evs, removed := evs + [Remove(round.removes)], Step(r, Remove(round.removes)).value;
      }
      evs := ArriveLeads(s, evs, removed, round.beforeDelivery);
      var d := Arrive(removed, round.beforeDelivery);
      if d.watcher.pc.Delivering? && !round.stop.StopsAfterRemoval? {
        LeadsOn(s, evs, d, Deliver);
        evs := evs + [Deliver];
      }
    }
  }

  lemma RoundLeads(s: State, round: Round) returns (evs: seq<Event>)
    ensures Leads(s, evs, AfterRound(s, round))
  {
    evs := ArriveLeads(s, [], s, round.beforeRead);
    var a := Arrive(s, round.beforeRead);
    var r := Step(a, Read);
    if r.Some? {
      LeadsOn(s, evs, a, Read);
      evs := ArriveLeads(s, evs + [Read], r.value, round.beforeRemoval);
      evs := FinishLeads(s, evs, Arrive(r.value, round.beforeRemoval), round);
    }
  }

  lemma {:induction false} LifeLeads(s: State, rounds: seq<Round>) returns (evs: seq<Event>)
    ensures Leads(s, evs, AfterLife(s, rounds))
    decreases |rounds|
  {
    if rounds == [] {
      evs := [];
    } else {
      var front := rounds[..|rounds| - 1];
      evs := LifeLeads(s, front);
      if AllRun(front) {
        var more := RoundLeads(AfterLife(s, front), rounds[|rounds| - 1]);
        ExecAppend(s, evs, more);
        evs := evs + more;
      }
    }
  }

  /** Whatever others append in between and wherever it stops, a restarted watcher makes nothing but steps of the machine. */
  lemma {:induction false} LivesAreRuns(deletes: bool, lives: seq<seq<Round>>) returns (evs: seq<Event>)
    ensures Exec(Init(deletes), evs) == Some(AfterLives(Init(deletes), lives))
    ensures AfterLives(Init(deletes), lives).crashes == |lives|
    decreases |lives|
  {
    if lives == [] {
      evs := [];
    } else {
      var front, last := lives[..|lives| - 1], lives[|lives| - 1];
      evs := LivesAreRuns(deletes, front);
      var more := LifeLeads(AfterLives(Init(deletes), front), last);
      NoCrash(AfterLives(Init(deletes), front), more);
      ExecAppend(Init(deletes), evs, more);
      ExecMore(Init(deletes), evs + more, Crash);
      evs := evs + more + [Crash];
    }
  }

  lemma {:induction false} NoCrash(s: State, evs: seq<Event>)
    requires Exec(s, evs).Some? && Crash !in evs
    ensures Exec(s, evs).value.crashes == s.crashes
    decreases |evs|
  {
    if evs != [] {
      assert evs[|evs| - 1] in evs;
      NoCrash(s, evs[..|evs| - 1]);
    }
  }

  // ---- What one round does

  lemma {:induction false} ArriveSame(s: State, arrivals: Arrivals)
    ensures var a := Arrive(s, arrivals);
            a == s.(entries := a.entries, appended := a.appended)
    decreases |arrivals|
  {
    if arrivals != [] {
      ArriveSame(s, arrivals[..|arrivals| - 1]);
    }
  }

  /** The entries are in ID order, and new IDs are above theirs. */
  ghost predicate Ordered(s: State) {
    Sorted(s.entries) && LastId(s.entries) <= LastId(s.appended)
  }

  lemma SortedTail(es: seq<Entry>, n: nat)
    requires Sorted(es) && n < |es|
    ensures Sorted(es[n..]) && LastId(es[n..]) == LastId(es)
  {
    var tail := es[n..];
    forall i, j | 0 <= i < j < |tail|
      ensures tail[i].id < tail[j].id
    {
      assert es[n + i].id < es[n + j].id;
    }
  }

  lemma TrimSorted(es: seq<Entry>, e: Entry)
    requires Sorted(es) && e.id > LastId(es)
    ensures Sorted(Trim(es + [e])) && LastId(Trim(es + [e])) == e.id
  {
    SortedAppend(es, e);
    if |es + [e]| > MAX_LEN {
      SortedTail(es + [e], |es + [e]| - MAX_LEN);
    }
  }

  lemma ArriveOneOrdered(s: State, arrival: (nat, Option<StatusKanban>))
    requires Ordered(s)
    ensures Ordered(ArriveOne(s, arrival))
  {
    var e := Entry(LastId(s.appended) + 1 + arrival.0, arrival.1);
    var t := ArriveOne(s, arrival);
    assert t.entries == Trim(s.entries + [e]) && LastId(t.appended) == e.id;
    TrimSorted(s.entries, e);
  }

  lemma {:induction false} ArriveOrdered(s: State, arrivals: Arrivals)
    requires Ordered(s)
    ensures Ordered(Arrive(s, arrivals))
    decreases |arrivals|
  {
    if arrivals != [] {
      ArriveOrdered(s, arrivals[..|arrivals| - 1]);
      ArriveOneOrdered(Arrive(s, arrivals[..|arrivals| - 1]), arrivals[|arrivals| - 1]);
    }
  }

  /**
   One round of a watcher that is at the loop head. If others have left nothing above its cursor, nothing changes; else the
   cursor moves to the smallest ID above it, that entry is delivered exactly if it decodes, and a deleting watcher makes
   exactly one attempt at a deletion, of the entry its cursor was at -- as far as it gets before it stops.
   */
  lemma RoundResult(s: State, round: Round)
    requires Ordered(s) && s.watcher.pc.AtHead?
    ensures var a, t := Arrive(s, round.beforeRead), AfterRound(s, round);
            && ((forall x | x in a.entries :: x.id <= s.watcher.prevId) ==> t == a)
            && (forall e | IsNext(a.entries, s.watcher.prevId, e) ::
                  && (round.stop.Runs? ==> t.watcher == Watcher(s.watcher.deletes, e.id, AtHead))
                  && t.delivered == s.delivered + (if e.kanban.Some? && round.stop.Runs? then [e] else [])
                  && t.attempts
                  == s.attempts + (if s.watcher.deletes && !round.stop.StopsAfterRead? then [s.watcher.prevId] else []))
  {
    var a := Arrive(s, round.beforeRead);
    ArriveSame(s, round.beforeRead);
    ArriveOrdered(s, round.beforeRead);
    ReadsOldest(a.entries, s.watcher.prevId);
    forall e | IsNext(a.entries, s.watcher.prevId, e)
      ensures FirstAfter(a.entries, s.watcher.prevId) == Some(e)
    {
      SameId(a.entries, e, FirstAfter(a.entries, s.watcher.prevId).value);
    }
    if FirstAfter(a.entries, s.watcher.prevId).Some? {
      ReadRound(a, round);
    }
  }

  lemma ReadRound(a: State, round: Round)
    requires Step(a, Read).Some?
    ensures var e, t := FirstAfter(a.entries, a.watcher.prevId).value,
                        FinishRound(Arrive(Step(a, Read).value, round.beforeRemoval), round);
            && (round.stop.Runs? ==> t.watcher == Watcher(a.watcher.deletes, e.id, AtHead))
            && t.delivered == a.delivered + (if e.kanban.Some? && round.stop.Runs? then [e] else [])
            && t.attempts
            == a.attempts + (if a.watcher.deletes && !round.stop.StopsAfterRead? then [a.watcher.prevId] else [])
  {
    var r := Step(a, Read).value;
    ArriveSame(r, round.beforeRemoval);
    var ready := Arrive(r, round.beforeRemoval);
    var removed := if ready.watcher.pc.Removing? then Step(ready, Remove(round.removes)).value else ready;
    ArriveSame(removed, round.beforeDelivery);
  }

  // ---- The watcher as a queue

  /** A plain queue: every entry that ever came, and how many have been taken. */
  datatype Fifo = Fifo(all: seq<Entry>, taken: nat)

  function Enqueue(all: seq<Entry>, arrivals: Arrivals): (r: seq<Entry>)
    ensures |r| == |all| + |arrivals|
  {
    if arrivals == [] then all
    else
      var es, last := Enqueue(all, arrivals[..|arrivals| - 1]), arrivals[|arrivals| - 1];
      es + [Entry(LastId(es) + 1 + last.0, last.1)]
  }

  /** Each round takes the next entry, if there is one. */
  function TakeOne(q: Fifo, round: Round): Fifo {
    var all := Enqueue(q.all, round.beforeRead);
    if q.taken >= |all| then Fifo(all, q.taken)
    else Fifo(Enqueue(Enqueue(all, round.beforeRemoval), round.beforeDelivery), q.taken + 1)
  }

  function Take(rounds: seq<Round>): (q: Fifo)
    ensures q.taken <= |q.all|
  {
    if rounds == [] then Fifo([], 0) else TakeOne(Take(rounds[..|rounds| - 1]), rounds[|rounds| - 1])
  }

  /** In the round no more than 50 entries are waiting to be taken. */
  predicate Copes(q: Fifo, round: Round) {
    && |q.all| + |round.beforeRead| - q.taken <= MAX_LEN
    && |TakeOne(q, round).all| - TakeOne(q, round).taken <= MAX_LEN
  }

  predicate KeepsUp(rounds: seq<Round>) {
    || rounds == []
    || (KeepsUp(rounds[..|rounds| - 1]) && Copes(Take(rounds[..|rounds| - 1]), rounds[|rounds| - 1]))
  }

  /** The stream has lost nothing that is not taken yet, and what was taken is delivered. */
  ghost predicate IsFifo(s: State, kept: seq<Entry>, q: Fifo) {
    s.appended == q.all && Intact(s, kept, q.taken)
  }

  lemma ArriveOneIntact(s: State, kept: seq<Entry>, n: nat, arrival: (nat, Option<StatusKanban>)) returns (kept': seq<Entry>)
    requires Intact(s, kept, n) && |s.appended| + 1 - n <= MAX_LEN
    ensures Intact(ArriveOne(s, arrival), kept', n)
  {
    kept' := AppendStep(s, kept, n, LastId(s.appended) + 1 + arrival.0, arrival.1);
  }

  lemma {:induction false} ArriveFifo(s: State, kept: seq<Entry>, q: Fifo, arrivals: Arrivals) returns (kept': seq<Entry>)
    requires IsFifo(s, kept, q) && |q.all| + |arrivals| - q.taken <= MAX_LEN
    ensures IsFifo(Arrive(s, arrivals), kept', Fifo(Enqueue(q.all, arrivals), q.taken))
    decreases |arrivals|
  {
    if arrivals == [] {
      kept' := kept;
    } else {
      var front := arrivals[..|arrivals| - 1];
      kept' := ArriveFifo(s, kept, q, front);
      kept' := ArriveOneIntact(Arrive(s, front), kept', q.taken, arrivals[|arrivals| - 1]);
    }
  }

  lemma ReadFifo(s: State, kept: seq<Entry>, q: Fifo) returns (kept': seq<Entry>)
    requires IsFifo(s, kept, q) && s.watcher.pc.AtHead?
    ensures Step(s, Read).Some? <==> q.taken < |q.all|
    ensures q.taken < |q.all| ==> IsFifo(Step(s, Read).value, kept', Fifo(q.all, q.taken + 1))
  {
    kept' := kept;
    var unread := s.appended[q.taken..];
    FirstAfterSkips(kept, unread, s.watcher.prevId);
    if q.taken < |q.all| {
      LaterId(s.appended, q.taken);
      ReadStep(s, kept, q.taken);
      kept' := kept + [s.appended[q.taken]];
    }
  }

  lemma LaterId(es: seq<Entry>, n: nat)
    requires Sorted(es) && n < |es|
    ensures es[n].id > LastId(es[..n])
  {
    if n > 0 {
      assert es[..n][n - 1].id < es[n].id;
    }
  }

  lemma FinishFifo(r: State, kept: seq<Entry>, q: Fifo, round: Round) returns (kept': seq<Entry>)
    requires IsFifo(r, kept, q) && round.stop.Runs? && |q.all| + |round.beforeDelivery| - q.taken <= MAX_LEN
    ensures IsFifo(FinishRound(r, round), kept', Fifo(Enqueue(q.all, round.beforeDelivery), q.taken))
  {
    kept' := kept;
    var removed := r;
    if r.watcher.pc.Removing? {
      RemoveStep(r, kept, q.taken, round.removes);
      removed, kept' := Step(r, Remove(round.removes)).value, if round.removes then Without(kept, r.watcher.prevId) else kept;
    }
    kept' := ArriveFifo(removed, kept', q, round.beforeDelivery);
    var d := Arrive(removed, round.beforeDelivery);
    if d.watcher.pc.Delivering? {
      DeliverStep(d, kept', q.taken);
    }
  }

  lemma RoundFifo(s: State, kept: seq<Entry>, q: Fifo, round: Round) returns (kept': seq<Entry>)
    requires IsFifo(s, kept, q) && s.watcher.pc.AtHead? && round.stop.Runs? && Copes(q, round)
    ensures IsFifo(AfterRound(s, round), kept', TakeOne(q, round))
    ensures AfterRound(s, round).attempts
         == if s.watcher.deletes && TakeOne(q, round).taken > q.taken then s.attempts + [s.watcher.prevId] else s.attempts
  {
    kept' := ArriveFifo(s, kept, q, round.beforeRead);
    var a, q1 := Arrive(s, round.beforeRead), Fifo(Enqueue(q.all, round.beforeRead), q.taken);
    ArriveSame(s, round.beforeRead);
    var kept1 := ReadFifo(a, kept', q1);
    if q1.taken < |q1.all| {
      var r, q2 := Step(a, Read).value, Fifo(q1.all, q1.taken + 1);
      kept' := ArriveFifo(r, kept1, q2, round.beforeRemoval);
      kept' := FinishFifo(Arrive(r, round.beforeRemoval), kept', q2.(all := Enqueue(q2.all, round.beforeRemoval)), round);
      ReadRound(a, round);
    }
  }

  lemma RoundAtHead(s: State, round: Round)
    requires s.watcher.pc.AtHead? && round.stop.Runs?
    ensures AfterRound(s, round).watcher.pc.AtHead? && AfterRound(s, round).watcher.deletes == s.watcher.deletes
  {
    ArriveSame(s, round.beforeRead);
    var a := Arrive(s, round.beforeRead);
    if Step(a, Read).Some? {
      ReadRound(a, round);
    }
  }

  lemma {:induction false} LifeFifo(deletes: bool, rounds: seq<Round>) returns (kept: seq<Entry>)
    requires AllRun(rounds) && KeepsUp(rounds)
    ensures var s := AfterLife(Init(deletes), rounds);
            IsFifo(s, kept, Take(rounds)) && s.watcher.pc.AtHead? && s.watcher.deletes == deletes
    decreases |rounds|
  {
    if rounds == [] {
      kept := [];
    } else {
      var front, last := rounds[..|rounds| - 1], rounds[|rounds| - 1];
      kept := LifeFifo(deletes, front);
      RoundAtHead(AfterLife(Init(deletes), front), last);
      kept := RoundFifo(AfterLife(Init(deletes), front), kept, Take(front), last);
    }
  }

  /** What a deleting watcher has asked to delete: for every entry taken the one before it, at first the ID 0. */
  function Attempted(taken: seq<Entry>): seq<nat> {
    if taken == [] then [] else Attempted(taken[..|taken| - 1]) + [LastId(taken[..|taken| - 1])]
  }

  lemma {:induction false} EnqueueKeeps(all: seq<Entry>, arrivals: Arrivals)
    ensures all <= Enqueue(all, arrivals)
    decreases |arrivals|
  {
    if arrivals != [] {
      EnqueueKeeps(all, arrivals[..|arrivals| - 1]);
    }
  }

  lemma TakenKeeps(q: Fifo, round: Round)
    requires q.taken <= |q.all|
    ensures TakeOne(q, round).all[..q.taken] == q.all[..q.taken]
  {
    var a := Enqueue(q.all, round.beforeRead);
    EnqueueKeeps(q.all, round.beforeRead);
    EnqueueKeeps(a, round.beforeRemoval);
    EnqueueKeeps(Enqueue(a, round.beforeRemoval), round.beforeDelivery);
  }

  function Attempts(deletes: bool, q: Fifo): seq<nat>
    requires q.taken <= |q.all|
  {
    if deletes then Attempted(q.all[..q.taken]) else []
  }

  lemma AttemptsMore(deletes: bool, q: Fifo, round: Round)
    requires q.taken <= |q.all|
    ensures var q' := TakeOne(q, round);
            && q.taken <= q'.taken <= |q'.all|
            && Attempts(deletes, q')
            == if deletes && q'.taken > q.taken then Attempts(deletes, q) + [LastId(q.all[..q.taken])] else Attempts(deletes, q)
  {
    var q' := TakeOne(q, round);
    TakenKeeps(q, round);
    assert q'.all[..q'.taken][..q.taken] == q.all[..q.taken];
  }

  lemma RoundAttempts(s: State, kept: seq<Entry>, q: Fifo, round: Round)
    requires IsFifo(s, kept, q) && s.watcher.pc.AtHead? && round.stop.Runs? && Copes(q, round)
    requires s.attempts == Attempts(s.watcher.deletes, q)
    ensures TakeOne(q, round).taken <= |TakeOne(q, round).all|
    ensures AfterRound(s, round).attempts == Attempts(s.watcher.deletes, TakeOne(q, round))
  {
    var kept' := RoundFifo(s, kept, q, round);
    AttemptsMore(s.watcher.deletes, q, round);
  }

  lemma {:induction false} LifeAttempts(deletes: bool, rounds: seq<Round>)
    requires AllRun(rounds) && KeepsUp(rounds)
    ensures AfterLife(Init(deletes), rounds).attempts == Attempts(deletes, Take(rounds))
    decreases |rounds|
  {
    if rounds != [] {
      var front := rounds[..|rounds| - 1];
      LifeAttempts(deletes, front);
      var kept := LifeFifo(deletes, front);
      RoundAttempts(AfterLife(Init(deletes), front), kept, Take(front), rounds[|rounds| - 1]);
    }
  }

  /**
   As long as it keeps up, the watcher is a plain queue. Whatever others append and whichever deletions fail, after its
   rounds it has delivered exactly the decodable ones among the entries taken, one taken by each round that found one;
   its cursor is at the last of them; a deleting watcher has asked once for the deletion of each but that last one; and all
   that are not taken are still in the stream.
   */
  lemma WatcherIsQueue(deletes: bool, rounds: seq<Round>)
    requires AllRun(rounds) && KeepsUp(rounds)
    ensures var s, q := AfterLife(Init(deletes), rounds), Take(rounds);
            && s.appended == q.all
            && s.delivered == Decodable(q.all[..q.taken])
            && s.watcher == Watcher(deletes, LastId(q.all[..q.taken]), AtHead)
            && s.attempts == (if deletes then Attempted(q.all[..q.taken]) else [])
            && exists kept :: s.entries == kept + q.all[q.taken..]
  {
    var kept := LifeFifo(deletes, rounds);
    LifeAttempts(deletes, rounds);
    var s := AfterLife(Init(deletes), rounds);
    assert s.delivered + [] == s.delivered;
  }

  predicate Quiet(round: Round) {
    round.beforeRead == [] && round.beforeRemoval == [] && round.beforeDelivery == []
  }

  /** The queue once `n` more have been taken, or all. */
  function TakeMore(q: Fifo, n: nat): Fifo {
    Fifo(q.all, if q.taken + n < |q.all| then q.taken + n else |q.all|)
  }

  lemma TakeQuiet(q: Fifo, round: Round)
    requires Quiet(round) && q.taken <= |q.all| <= q.taken + MAX_LEN
    ensures TakeOne(q, round) == TakeMore(q, 1) && Copes(q, round)
  {
  }

  lemma {:induction false} QuietTail(rounds: seq<Round>, n: nat)
    requires n <= |rounds| && KeepsUp(rounds[..n]) && forall i | n <= i < |rounds| :: Quiet(rounds[i])
    ensures KeepsUp(rounds) && Take(rounds) == TakeMore(Take(rounds[..n]), |rounds| - n)
    decreases |rounds|
  {
    if n == |rounds| {
      assert rounds[..n] == rounds;
    } else {
      var front := rounds[..|rounds| - 1];
      assert front[..n] == rounds[..n];
      QuietTail(front, n);
      Waiting(front);
      TakeQuiet(Take(front), rounds[|rounds| - 1]);
    }
  }

  lemma {:induction false} Waiting(rounds: seq<Round>)
    requires KeepsUp(rounds)
    ensures |Take(rounds).all| - Take(rounds).taken <= MAX_LEN
  {
    if rounds != [] {
      assert Copes(Take(rounds[..|rounds| - 1]), rounds[|rounds| - 1]);
    }
  }

  /** If nothing arrives in at least as many last rounds as entries were waiting, every decodable entry ever appended is delivered. */
  lemma Drains(deletes: bool, rounds: seq<Round>, n: nat)
    requires n <= |rounds| && AllRun(rounds) && KeepsUp(rounds[..n]) && forall i | n <= i < |rounds| :: Quiet(rounds[i])
    requires |rounds| - n >= |Take(rounds[..n]).all| - Take(rounds[..n]).taken
    ensures var s := AfterLife(Init(deletes), rounds);
            s.appended == Take(rounds[..n]).all && s.delivered == Decodable(s.appended)
  {
    QuietTail(rounds, n);
    WatcherIsQueue(deletes, rounds);
    var q := Take(rounds);
    assert q.all[..q.taken] == q.all;
  }

  // ---- The loop on a stream object

  /** The stream object and what has been delivered are as in the state of the machine. */
  ghost predicate Holds(stream: RedisStream, delivered: seq<Entry>, s: State)
    reads stream
  {
    && s.entries == stream.entries && LastId(s.appended) == stream.lastId && s.attempts == stream.attempts
    && s.delivered == delivered
  }

  lemma ArriveMore(s: State, arrivals: Arrivals, n: nat)
    requires n < |arrivals|
    ensures Arrive(s, arrivals[..n + 1]) == ArriveOne(Arrive(s, arrivals[..n]), arrivals[n])
  {
    assert arrivals[..n + 1][..n] == arrivals[..n];
  }

  method OtherAppends(stream: RedisStream, arrival: (nat, Option<StatusKanban>), ghost delivered: seq<Entry>, ghost s: State)
    requires Holds(stream, delivered, s)
    modifies stream
    ensures Holds(stream, delivered, ArriveOne(s, arrival))
  {
    stream.XAdd(stream.lastId + 1 + arrival.0, arrival.1);
  }

  method OthersAppend(stream: RedisStream, arrivals: Arrivals, ghost delivered: seq<Entry>, ghost s: State)
    requires Holds(stream, delivered, s)
    modifies stream
    ensures Holds(stream, delivered, Arrive(s, arrivals))
  {
    for n := 0 to |arrivals|
      invariant Holds(stream, delivered, Arrive(s, arrivals[..n]))
    {
      ArriveMore(s, arrivals, n);
      OtherAppends(stream, arrivals[n], delivered, Arrive(s, arrivals[..n]));
    }
    assert arrivals[..|arrivals|] == arrivals;
  }

  /** The rest of a round that has read an entry: delete the previous one, move the cursor, deliver. */
  method FinishReading(stream: RedisStream, deletes: bool, prevId: nat, delivered: seq<Entry>, next: Entry, round: Round, ghost r: State)
    returns (prevId': nat, delivered': seq<Entry>)
    requires r.watcher == if deletes then Watcher(true, prevId, Removing(next)) else Accept(Watcher(false, prevId, AtHead), next)
    requires Holds(stream, delivered, r)
    modifies stream
    ensures Holds(stream, delivered', FinishRound(r, round))
    ensures round.stop.Runs? ==> FinishRound(r, round).watcher == Watcher(deletes, prevId', AtHead)
  {
    prevId', delivered' := prevId, delivered;
    if round.stop.StopsAfterRead? {
      return;
    }
    ghost var removed := if deletes then Step(r, Remove(round.removes)).value else r;
    if deletes {
      stream.XDel(prevId, round.removes);
    }
    prevId' := next.id;
    OthersAppend(stream, round.beforeDelivery, delivered, removed);
    ArriveSame(removed, round.beforeDelivery);
    if round.stop.StopsAfterRemoval? {
      return;
    }
    if next.kanban.Some? {
      delivered' := delivered + [next];
    }
  }

  /** One round of the loop. With nothing to read it blocks until the next round's arrivals. */
  method WatchRound(stream: RedisStream, deletes: bool, prevId: nat, delivered: seq<Entry>, round: Round, ghost s: State)
    returns (prevId': nat, delivered': seq<Entry>)
    requires Holds(stream, delivered, s) && s.watcher == Watcher(deletes, prevId, AtHead)
    modifies stream
    ensures Holds(stream, delivered', AfterRound(s, round))
    ensures round.stop.Runs? ==> AfterRound(s, round).watcher == Watcher(deletes, prevId', AtHead)
  {
    OthersAppend(stream, round.beforeRead, delivered, s);
    ghost var a := Arrive(s, round.beforeRead);
    ArriveSame(s, round.beforeRead);
    var next := stream.XReadOne(prevId);
    if next.None? {
      return prevId, delivered;
    }
    ghost var r := Step(a, Read).value;
    OthersAppend(stream, round.beforeRemoval, delivered, r);
    ArriveSame(r, round.beforeRemoval);
    prevId', delivered' := FinishReading(stream, deletes, prevId, delivered, next.value, round, Arrive(r, round.beforeRemoval));
  }

  /** One life of the watcher's loop, from the cursor "0", over rounds up to the first in which it stops. */
  method WatchKanban(stream: RedisStream, deletes: bool, delivered: seq<Entry>, rounds: seq<Round>, ghost s: State)
    returns (delivered': seq<Entry>)
    requires Holds(stream, delivered, s) && s.watcher == Watcher(deletes, 0, AtHead)
    modifies stream
    ensures Holds(stream, delivered', AfterLife(s, rounds))
  {
    var prevId := 0;
    delivered' := delivered;
    for n := 0 to |rounds|
      invariant AllRun(rounds[..n]) && AfterLife(s, rounds[..n]).watcher == Watcher(deletes, prevId, AtHead)
      invariant Holds(stream, delivered', AfterLife(s, rounds[..n]))
    {
      assert rounds[..n + 1][..n] == rounds[..n];
      prevId, delivered' := WatchRound(stream, deletes, prevId, delivered', rounds[n], AfterLife(s, rounds[..n]));
      if !rounds[n].stop.Runs? {
        StoppedLife(s, rounds, n);
        return;
      }
    }
    assert rounds[..|rounds|] == rounds;
  }

  /** Nothing happens after the first round in which the watcher stops. */
  lemma {:induction false} StoppedLife(s: State, rounds: seq<Round>, n: nat)
    requires n < |rounds| && !rounds[n].stop.Runs?
    ensures AfterLife(s, rounds) == AfterLife(s, rounds[..n + 1]) && !AllRun(rounds)
    decreases |rounds|
  {
    var front := rounds[..|rounds| - 1];
    if n < |front| {
      StoppedLife(s, front, n);
      assert front[..n + 1] == rounds[..n + 1];
    } else {
      assert rounds[..n + 1] == rounds;
    }
  }

  /** A watcher restarted after every crash, from the flushed stream the broker starts with. */
  method RestartedWatcher(stream: RedisStream, deletes: bool, lives: seq<seq<Round>>) returns (delivered: seq<Entry>)
    requires stream.entries == [] && stream.lastId == 0 && stream.attempts == []
    modifies stream
    ensures Holds(stream, delivered, AfterLives(Init(deletes), lives))
  {
    delivered := [];
    for n := 0 to |lives|
      invariant AfterLives(Init(deletes), lives[..n]).watcher == Watcher(deletes, 0, AtHead)
      invariant Holds(stream, delivered, AfterLives(Init(deletes), lives[..n]))
    {
      assert lives[..n + 1][..n] == lives[..n];
      delivered := WatchKanban(stream, deletes, delivered, lives[n], AfterLives(Init(deletes), lives[..n]));
      SameMode(AfterLives(Init(deletes), lives[..n]), lives[n]);
    }
    assert lives[..|lives|] == lives;
  }

  lemma SameMode(s: State, rounds: seq<Round>)
    ensures AfterLife(s, rounds).watcher.deletes == s.watcher.deletes
  {
    var evs := LifeLeads(s, rounds);
    ModeKept(s, evs);
  }

  lemma {:induction false} ModeKept(s: State, evs: seq<Event>)
    requires Exec(s, evs).Some?
    ensures Exec(s, evs).value.watcher.deletes == s.watcher.deletes
    decreases |evs|
  {
    if evs != [] {
      ModeKept(s, evs[..|evs| - 1]);
    }
  }
}
