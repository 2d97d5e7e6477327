/**
 The Redis stream behind a kanban queue, as far as the program relies on it: entries in ID order, `XADD` with exact
 trimming to 50 entries, `XREAD COUNT 1` from an ID, and `XDEL`.
 */
module Streams {
  import opened Basics
  import opened Kanbans

  /** An entry whose payload does not decode to a kanban carries `None`. */
  datatype Entry = Entry(id: nat, kanban: Option<StatusKanban>)

  const MAX_LEN := 50

  ghost predicate Sorted(es: seq<Entry>) {
    && (forall i | 0 <= i < |es| :: es[i].id > 0)
    && (forall i, j | 0 <= i < j < |es| :: es[i].id < es[j].id)
  }

  function Trim(es: seq<Entry>): seq<Entry> {
    if |es| > MAX_LEN then es[|es| - MAX_LEN..] else es
  }

  function Without(es: seq<Entry>, id: nat): seq<Entry> {
    if es == [] then []
    else if es[0].id == id then Without(es[1..], id)
    else [es[0]] + Without(es[1..], id)
  }

  /** The oldest entry after `id`; with none, the read blocks. */
  function FirstAfter(es: seq<Entry>, id: nat): Option<Entry> {
    if es == [] then None
    else if es[0].id > id then Some(es[0])
    else FirstAfter(es[1..], id)
  }

  function LastId(es: seq<Entry>): nat {
    if es == [] then 0 else es[|es| - 1].id
  }

  /** `e` is what a read after `id` returns: of the entries with a larger ID, the one with the smallest. */
  ghost predicate IsNext(es: seq<Entry>, id: nat, e: Entry) {
    e in es && e.id > id && forall x | x in es && x.id > id :: x.id >= e.id
  }

  /** A read returns the oldest entry after the ID, and finds nothing exactly when no entry has a larger one. */
  lemma {:induction false} ReadsOldest(es: seq<Entry>, id: nat)
    requires Sorted(es)
    ensures FirstAfter(es, id).None? <==> forall x | x in es :: x.id <= id
    ensures FirstAfter(es, id).Some? ==> IsNext(es, id, FirstAfter(es, id).value)
    decreases |es|
  {
    if es != [] {
      ReadsOldest(es[1..], id);
      assert forall x :: x in es <==> x == es[0] || x in es[1..];
      assert es[0] in es;
    }
  }

  /** In a sorted stream the ID tells which entry it is. */
  lemma SameId(es: seq<Entry>, a: Entry, b: Entry)
    requires Sorted(es) && a in es && b in es && a.id == b.id
    ensures a == b
  {
  }

  lemma {:induction false} FirstAfterSkips(a: seq<Entry>, b: seq<Entry>, id: nat)
    requires forall i | 0 <= i < |a| :: a[i].id <= id
    ensures FirstAfter(a + b, id) == FirstAfter(b, id)
    decreases |a|
  {
    if a == [] {
      assert a + b == b;
    } else {
      assert (a + b)[1..] == a[1..] + b;
      FirstAfterSkips(a[1..], b, id);
    }
  }

  lemma {:induction false} WithoutAppend(a: seq<Entry>, b: seq<Entry>, id: nat)
    ensures Without(a + b, id) == Without(a, id) + Without(b, id)
    decreases |a|
  {
    if a == [] {
      assert a + b == b;
    } else {
      assert (a + b)[1..] == a[1..] + b;
      WithoutAppend(a[1..], b, id);
    }
  }

  lemma {:induction false} WithoutNothing(es: seq<Entry>, id: nat)
    requires forall i | 0 <= i < |es| :: es[i].id != id
    ensures Without(es, id) == es
    decreases |es|
  {
    if es != [] {
      WithoutNothing(es[1..], id);
    }
  }

  /** What is removed, and that nothing else is. */
  lemma {:induction false} WithoutKeeps(es: seq<Entry>, id: nat)
    ensures forall e :: e in Without(es, id) <==> e in es && e.id != id
    decreases |es|
  {
    if es != [] {
      WithoutKeeps(es[1..], id);
      assert forall e :: e in es <==> e == es[0] || e in es[1..];
    }
  }

  /** `attempts` records the IDs that the program has asked to delete. */
  class RedisStream {
    var entries: seq<Entry>
    var lastId: nat
    var attempts: seq<nat>

    constructor ()
      ensures entries == [] && lastId == 0 && attempts == []
    {
      entries, lastId, attempts := [], 0, [];
    }

    /** The server picks the ID; all the program needs is that it is larger than every ID before it. */
    method XAdd(id: nat, kanban: Option<StatusKanban>)
      requires id > lastId
      modifies `entries, `lastId
      ensures entries == Trim(old(entries) + [Entry(id, kanban)]) && lastId == id
    {
      entries := entries + [Entry(id, kanban)];
      if |entries| > MAX_LEN {
        entries := entries[|entries| - MAX_LEN..];
      }
      lastId := id;
    }

    method XReadOne(after: nat) returns (r: Option<Entry>)
      ensures r == FirstAfter(entries, after)
    {
      var i := 0;
      while i < |entries|
        invariant 0 <= i <= |entries|
        invariant FirstAfter(entries, after) == FirstAfter(entries[i..], after)
      {
        if entries[i].id > after {
          return Some(entries[i]);
        }
        i := i + 1;
      }
      return None;
    }

    /** A deletion may fail (`ok` is whether it does not); the program then only logs it. */
    method XDel(id: nat, ok: bool)
      modifies `entries, `attempts
      ensures entries == if ok then Without(old(entries), id) else old(entries)
      ensures attempts == old(attempts) + [id]
    {
      attempts := attempts + [id];
      if ok {
        entries := Without(entries, id);
      }
    }
  }
}
