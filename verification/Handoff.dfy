/**
 The broker's two loops and the unbuffered channels between them: the controller hands every setting to the receive loop,
 the receive loop and the service watchers hand start requests to the controller. In default mode.
 Main results: `Conserved`, `MutualBlocking`, `SettingStillTaken`, `RequestStillTaken` and `NothingAfterBlocking`.
 */
module Handoff {
  import opened Basics

  /** At its `select`, sending the setting, working on the setting, or returned. */
  datatype Controller = AtSelect | Offering | Deploying | ControllerGone

  /** At its `select`, sending a start request, or returned. */
  datatype Receiver = Listening | Requesting | ReceiverGone

  /** `idle` and `waiting` are the service watchers, the latter sending a start request. */
  datatype State = State(controller: Controller, receiver: Receiver, idle: set<nat>, waiting: set<nat>, done: bool)

  datatype Event =
    | TakeSetting                     // a setting arrives at the controller
    | HandOver                        // the controller's send meets the receive loop's select
    | Deployed(launched: set<nat>)    // back to the select, with new watchers
    | TakeKanban                      // a kanban arrives from another device
    | RequestTaken(launched: set<nat>)
    | WatcherRequests(w: nat)
    | WatcherRequestTaken(w: nat, launched: set<nat>)
    | WatcherEnds(w: nat)
    | Cancel                          // the root context is cancelled
    | ControllerReturns
    | ReceiverReturns

  const INIT := State(AtSelect, Listening, {}, {}, false)

  /** Watchers launched are not among those there are. */
  predicate IsNew(s: State, launched: set<nat>) {
    launched !! (s.idle + s.waiting)
  }

  function Step(s: State, ev: Event): Option<State> {
    match ev
    case TakeSetting =>
      if s.controller.AtSelect? then Some(s.(controller := Offering)) else None
    case HandOver =>
      if s.controller.Offering? && s.receiver.Listening? then Some(s.(controller := Deploying)) else None
    case Deployed(launched) =>
      if s.controller.Deploying? && IsNew(s, launched) then Some(s.(controller := AtSelect, idle := s.idle + launched)) else None
    case TakeKanban =>
      if s.receiver.Listening? then Some(s.(receiver := Requesting)) else None
    case RequestTaken(launched) =>
      if s.receiver.Requesting? && s.controller.AtSelect? && IsNew(s, launched)
      then Some(s.(receiver := Listening, idle := s.idle + launched)) else None
    case WatcherRequests(w) =>
      if w in s.idle then Some(s.(idle := s.idle - {w}, waiting := s.waiting + {w})) else None
    case WatcherRequestTaken(w, launched) =>
      if w in s.waiting && s.controller.AtSelect? && IsNew(s, launched)
      then Some(s.(waiting := s.waiting - {w}, idle := s.idle + {w} + launched)) else None
    case WatcherEnds(w) =>
      if w in s.idle then Some(s.(idle := s.idle - {w})) else None
    case Cancel => Some(s.(done := true))
    case ControllerReturns =>
      if s.controller.AtSelect? && s.done then Some(s.(controller := ControllerGone)) else None
    case ReceiverReturns =>
      if s.receiver.Listening? && s.done then Some(s.(receiver := ReceiverGone)) else None
  }

  function Run(s: State, evs: seq<Event>): Option<State> {
    if evs == [] then Some(s)
    else
      match Run(s, evs[..|evs| - 1])
      case None => None
      case Some(t) => Step(t, evs[|evs| - 1])
  }

  // ---- Nothing is lost or duplicated at the hand-offs

  predicate TakesSetting(ev: Event) {
    ev.TakeSetting?
  }

  predicate HandsOver(ev: Event) {
    ev.HandOver?
  }

  predicate Deploys(ev: Event) {
    ev.Deployed?
  }

  predicate TakesKanban(ev: Event) {
    ev.TakeKanban?
  }

  predicate TakesRequest(ev: Event) {
    ev.RequestTaken?
  }

  function Count(evs: seq<Event>, p: Event -> bool): nat {
    if evs == [] then 0 else Count(evs[..|evs| - 1], p) + if p(evs[|evs| - 1]) then 1 else 0
  }

  /**
   In every run each setting taken is handed over once, each one handed over is deployed once, and each kanban from a device
   brings one start request -- but for the one that the loop in question is at.
   */
  lemma {:induction false} Conserved(evs: seq<Event>)
    requires Run(INIT, evs).Some?
    ensures var s := Run(INIT, evs).value;
            && Count(evs, TakesSetting) == Count(evs, HandsOver) + (if s.controller.Offering? then 1 else 0)
            && Count(evs, HandsOver) == Count(evs, Deploys) + (if s.controller.Deploying? then 1 else 0)
            && Count(evs, TakesKanban) == Count(evs, TakesRequest) + (if s.receiver.Requesting? then 1 else 0)
    decreases |evs|
  {
    if evs != [] {
      Conserved(evs[..|evs| - 1]);
    }
  }

  /** A loop is gone exactly if it returned. */
  lemma {:induction false} GoneExactly(evs: seq<Event>)
    requires Run(INIT, evs).Some?
    ensures var s := Run(INIT, evs).value;
            && (s.controller.ControllerGone? <==> ControllerReturns in evs)
            && (s.receiver.ReceiverGone? <==> ReceiverReturns in evs)
    decreases |evs|
  {
    if evs != [] {
      GoneExactly(evs[..|evs| - 1]);
      assert evs == evs[..|evs| - 1] + [evs[|evs| - 1]];
    }
  }

  /** The watchers that an event launches. */
  function Launched(ev: Event): set<nat> {
    match ev
    case Deployed(launched) => launched
    case RequestTaken(launched) => launched
    case WatcherRequestTaken(_, launched) => launched
    case _ => {}
  }

  function Launches(evs: seq<Event>, w: nat): nat {
    if evs == [] then 0 else Launches(evs[..|evs| - 1], w) + if w in Launched(evs[|evs| - 1]) then 1 else 0
  }

  function Ends(evs: seq<Event>, w: nat): nat {
    if evs == [] then 0 else Ends(evs[..|evs| - 1], w) + if evs[|evs| - 1] == WatcherEnds(w) then 1 else 0
  }

  function Requests(evs: seq<Event>, w: nat): nat {
    if evs == [] then 0 else Requests(evs[..|evs| - 1], w) + if evs[|evs| - 1] == WatcherRequests(w) then 1 else 0
  }

  function Served(evs: seq<Event>, w: nat): nat {
    if evs == [] then 0
    else
      var last := evs[|evs| - 1];
      Served(evs[..|evs| - 1], w) + if last.WatcherRequestTaken? && last.w == w then 1 else 0
  }

  /** No watcher both waits and does not. */
  lemma {:induction false} IdleOrWaiting(evs: seq<Event>)
    requires Run(INIT, evs).Some?
    ensures Run(INIT, evs).value.idle !! Run(INIT, evs).value.waiting
    decreases |evs|
  {
    if evs != [] {
      IdleOrWaiting(evs[..|evs| - 1]);
    }
  }

  /** A watcher is there from its launch to its end, and waits from each start request until that is taken. */
  lemma {:induction false} WatchersConserved(evs: seq<Event>, w: nat)
    requires Run(INIT, evs).Some?
    ensures var s := Run(INIT, evs).value;
            && Launches(evs, w) == Ends(evs, w) + (if w in s.idle || w in s.waiting then 1 else 0)
            && Requests(evs, w) == Served(evs, w) + (if w in s.waiting then 1 else 0)
    decreases |evs|
  {
    if evs != [] {
      WatchersConserved(evs[..|evs| - 1], w);
      IdleOrWaiting(evs[..|evs| - 1]);
    }
  }

  // ---- Blocking

  /** Whatever happens next, neither loop gets any further. */
  ghost predicate Frozen(s: State) {
    forall evs | Run(s, evs).Some? ::
      Run(s, evs).value.controller == s.controller && Run(s, evs).value.receiver == s.receiver
  }

  lemma {:induction false} StaysBlocked(s: State, evs: seq<Event>)
    requires Run(s, evs).Some?
    requires s.controller.Offering? || s.controller.ControllerGone?
    requires s.receiver.Requesting? || s.receiver.ReceiverGone?
    ensures Run(s, evs).value.controller == s.controller && Run(s, evs).value.receiver == s.receiver
    decreases |evs|
  {
    if evs != [] {
      StaysBlocked(s, evs[..|evs| - 1]);
    }
  }

  lemma RunOne(s: State, ev: Event)
    ensures Run(s, [ev]) == Step(s, ev)
  {
    assert [ev][..0] == [];
  }

  /**
   The loops wait for each other for ever, neither having returned, exactly when one is at the setting hand-off and the
   other at the start-request hand-off. No event releases them, not even the end of the root context.
   */
  lemma MutualBlocking(s: State)
    ensures Frozen(s) && !s.controller.ControllerGone? && !s.receiver.ReceiverGone?
       <==> s.controller.Offering? && s.receiver.Requesting?
  {
    if s.controller.Offering? && s.receiver.Requesting? {
      forall evs | Run(s, evs).Some?
        ensures Run(s, evs).value.controller == s.controller && Run(s, evs).value.receiver == s.receiver
      {
        StaysBlocked(s, evs);
      }
    } else {
      RunOne(s, TakeSetting);
      RunOne(s, HandOver);
      RunOne(s, Deployed({}));
      RunOne(s, TakeKanban);
    }
  }

  /** A setting and a kanban from another device arriving close together are enough. */
  lemma BlockingReachable() returns (evs: seq<Event>)
    ensures Run(INIT, evs).Some? && Frozen(Run(INIT, evs).value)
    ensures !Run(INIT, evs).value.controller.ControllerGone? && !Run(INIT, evs).value.receiver.ReceiverGone?
    ensures Cancel !in evs
  {
    evs := [TakeSetting, TakeKanban];
    assert evs[..1] == [TakeSetting];
    RunOne(INIT, TakeSetting);
    MutualBlocking(Run(INIT, evs).value);
  }

  /** The loops return only after the root context has ended. */
  lemma {:induction false} ReturnsOnlyWhenDone(evs: seq<Event>)
    requires Run(INIT, evs).Some?
    ensures var s := Run(INIT, evs).value;
            && (s.done <==> Cancel in evs)
            && (s.controller.ControllerGone? || s.receiver.ReceiverGone? ==> s.done)
    decreases |evs|
  {
    if evs != [] {
      ReturnsOnlyWhenDone(evs[..|evs| - 1]);
      assert evs == evs[..|evs| - 1] + [evs[|evs| - 1]];
    }
  }

  ghost predicate CanHappen(s: State, ev: Event) {
    exists evs :: HappensAfter(s, evs, ev)
  }

  ghost predicate HappensAfter(s: State, evs: seq<Event>, ev: Event) {
    Run(s, evs).Some? && Step(Run(s, evs).value, ev).Some?
  }

  /**
   A setting on offer can still be handed over exactly when the receive loop is at its select; otherwise that loop
   is itself at its hand-off, or has returned -- which before the end of the root context it has not.
   */
  lemma SettingStillTaken(evs: seq<Event>)
    requires Run(INIT, evs).Some? && Run(INIT, evs).value.controller.Offering?
    ensures var s := Run(INIT, evs).value;
            && (CanHappen(s, HandOver) <==> s.receiver.Listening?)
            && (Cancel !in evs ==> (CanHappen(s, HandOver) <==> !Frozen(s)))
  {
    var s := Run(INIT, evs).value;
    ReturnsOnlyWhenDone(evs);
    MutualBlocking(s);
    assert Run(s, []) == Some(s);
    if s.receiver.Listening? {
      assert HappensAfter(s, [], HandOver);
    } else if CanHappen(s, HandOver) {
      var next :| HappensAfter(s, next, HandOver);
      StaysBlocked(s, next);
    }
  }

  /**
   A start request of the receive loop can still be taken exactly when the controller is at its select or on the way
   back to it; otherwise the controller is itself at its hand-off, or has returned.
   */
  lemma RequestStillTaken(evs: seq<Event>)
    requires Run(INIT, evs).Some? && Run(INIT, evs).value.receiver.Requesting?
    ensures var s := Run(INIT, evs).value;
            && (CanHappen(s, RequestTaken({})) <==> s.controller.AtSelect? || s.controller.Deploying?)
            && (Cancel !in evs ==> (CanHappen(s, RequestTaken({})) <==> !Frozen(s)))
  {
    var s := Run(INIT, evs).value;
    ReturnsOnlyWhenDone(evs);
    MutualBlocking(s);
    assert Run(s, []) == Some(s);
    if s.controller.AtSelect? {
      assert HappensAfter(s, [], RequestTaken({}));
    } else if s.controller.Deploying? {
      RunOne(s, Deployed({}));
      assert HappensAfter(s, [Deployed({})], RequestTaken({}));
    } else if CanHappen(s, RequestTaken({})) {
      var next :| HappensAfter(s, next, RequestTaken({}));
      StaysBlocked(s, next);
    }
  }

  predicate Serves(ev: Event) {
    ev.HandOver? || ev.RequestTaken? || ev.WatcherRequestTaken? || ev.TakeSetting? || ev.TakeKanban?
  }

  lemma StillWaiting(s: State, ev: Event)
    requires s.controller.Offering? && s.receiver.Requesting? && Step(s, ev).Some?
    ensures !Serves(ev) && s.waiting <= Step(s, ev).value.waiting
  {
  }

  /** The blocking spreads: from then on no setting, no kanban from a device and no watcher's start request is served. */
  lemma {:induction false} NothingAfterBlocking(s: State, evs: seq<Event>)
    requires s.controller.Offering? && s.receiver.Requesting? && Run(s, evs).Some?
    ensures forall ev | ev in evs :: !Serves(ev)
    ensures s.waiting <= Run(s, evs).value.waiting
    decreases |evs|
  {
    if evs != [] {
      NothingAfterBlocking(s, evs[..|evs| - 1]);
      StaysBlocked(s, evs[..|evs| - 1]);
      StillWaiting(Run(s, evs[..|evs| - 1]).value, evs[|evs| - 1]);
      assert evs == evs[..|evs| - 1] + [evs[|evs| - 1]];
    }
  }
}
