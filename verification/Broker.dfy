/**
 The service broker's controller loop on values (cmd/service-broker/app/controller.go): applying a setting and starting
 services on request. Main results: `RunInvariant`, `ApplyResult`, `RequestResult`, `KnownServices` and `GenerationSafety`.
 */
module Broker {
  import opened Basics
  import opened Settings
  import opened Containers

  /**
   What the controller did, in order: `Spawn` launches the watcher of an instance under a context, `HandOver` gives the
   setting to the receive loop, for the watchers.
   */
  datatype Act =
    | Create(name: string, scale: nat)
    | Start(name: string, num: int)
    | Spawn(name: string, num: int, ctx: Option<nat>)
    | Stop(name: string, num: int)
    | HandOver(setting: AionSetting)

  /**
   Contexts are numbered in order of creation. `cancel` and `childCtx` are the loop's two variables; they are unset
   until the first setting arrives. `running` is false once the loop has returned.
   */
  datatype State = State(
    list: map<string, Scale>,
    setting: Option<AionSetting>,
    cancel: Option<nat>,
    childCtx: Option<nat>,
    contexts: nat,
    cancelled: set<nat>,
    log: seq<Act>,
    running: bool)

  const INIT := State(map[], None, None, None, 0, {}, [], true)

  /** The instances (service and number) whose process does not stop or start. */
  type Failures = set<(string, int)>

  /** The orders in which the runtime happens to range over the three maps. */
  datatype Orders = Orders(stop: seq<string>, create: seq<string>, start: seq<string>)

  datatype Event =
    | Apply(setting: AionSetting, stopFails: Failures, startFails: Failures, orders: Orders)
    | Request(name: string, num: int, ok: bool)
    | ContextDone

  // ---- One instance

  function StartNumber(b: State, name: string, num: int, ok: bool): State {
    if name !in b.list || !StartOutcome(b.list[name], num, ok).Done? then b
    else b.(list := b.list[name := Started(b.list[name], num, ok)],
            log := b.log + [Start(name, num), Spawn(name, num, b.childCtx)])
  }

  function StopNumber(b: State, name: string, num: int, ok: bool): State {
    if name !in b.list || !StopOutcome(b.list[name], num, ok).Done? then b
    else b.(list := b.list[name := Stopped(b.list[name], num, ok)], log := b.log + [Stop(name, num)])
  }

  function CreateService(b: State, name: string, ms: Microservice): State {
    b.(list := b.list[name := NewScale(ms)], log := b.log + [Create(name, ScaleOf(ms))])
  }

  // ---- The loops, over the first `n` instances or over the names in the order ranged over

  function StartUpTo(b: State, name: string, n: nat, fails: Failures): State {
    if n == 0 then b else StartNumber(StartUpTo(b, name, n - 1, fails), name, n, (name, n) !in fails)
  }

  function StopUpTo(b: State, name: string, n: nat, fails: Failures): State {
    if n == 0 then b else StopNumber(StopUpTo(b, name, n - 1, fails), name, n, (name, n) !in fails)
  }

  function StartService(b: State, name: string, fails: Failures): State {
    if name !in b.list then b else StartUpTo(b, name, GetScale(b.list[name]), fails)
  }

  function StopService(b: State, name: string, fails: Failures): State {
    if name !in b.list then b else StopUpTo(b, name, GetScale(b.list[name]), fails)
  }

  function StopAll(b: State, order: seq<string>, fails: Failures): State {
    if order == [] then b else StopService(StopAll(b, order[..|order| - 1], fails), order[|order| - 1], fails)
  }

  function CreateAll(b: State, order: seq<string>, services: map<string, Microservice>): State {
    if order == [] then b
    else
      var before, name := CreateAll(b, order[..|order| - 1], services), order[|order| - 1];
      if name in services then CreateService(before, name, services[name]) else before
  }

  function StartStartups(b: State, order: seq<string>, services: map<string, Microservice>, fails: Failures): State {
    if order == [] then b
    else
      var before, name := StartStartups(b, order[..|order| - 1], services, fails), order[|order| - 1];
      if name in services && services[name].startup then StartService(before, name, fails) else before
  }

  /** The previous context is cancelled and a new one made before anything is stopped. */
  function NewContext(b: State): State {
    b.(cancelled := if b.cancel.Some? then b.cancelled + {b.cancel.value} else b.cancelled,
       cancel := Some(b.contexts), childCtx := Some(b.contexts), contexts := b.contexts + 1)
  }

  /** The controller keeps the setting and hands it over; it waits until the receive loop has taken it. */
  function TakeOver(b: State, setting: AionSetting): State {
    b.(setting := Some(setting), log := b.log + [HandOver(setting)])
  }

  function Applied(b: State, setting: AionSetting, stopFails: Failures, startFails: Failures, orders: Orders): State {
    var stopped := TakeOver(StopAll(NewContext(b), orders.stop, stopFails), setting);
    StartStartups(CreateAll(stopped, orders.create, setting.microservices), orders.start, setting.microservices, startFails)
  }

  function Step(b: State, ev: Event): State {
    if !b.running then b
    else
      match ev
      case Apply(setting, stopFails, startFails, orders) => Applied(b, setting, stopFails, startFails, orders)
      case Request(name, num, ok) => StartNumber(b, name, num, ok)
      case ContextDone =>
        b.(cancelled := if b.cancel.Some? then b.cancelled + {b.cancel.value} else b.cancelled, running := false)
  }

  function Run(b: State, evs: seq<Event>): State {
    if evs == [] then b else Step(Run(b, evs[..|evs| - 1]), evs[|evs| - 1])
  }

  // ---- What the log says, independently of the state

  /** Successful starts since the last successful stop or (re-)creation. */
  function UpSince(log: seq<Act>, name: string, num: int): nat {
    if log == [] then 0
    else
      var before := log[..|log| - 1];
      match log[|log| - 1]
      case Create(m, _) => if m == name then 0 else UpSince(before, name, num)
      case Start(m, k) => if m == name && k == num then 1 + UpSince(before, name, num) else UpSince(before, name, num)
      case Stop(m, k) => if m == name && k == num then 0 else UpSince(before, name, num)
      case Spawn(_, _, _) => UpSince(before, name, num)
      case HandOver(_) => UpSince(before, name, num)
  }

  /** The scale the service was last created with. */
  function LastScale(log: seq<Act>, name: string): Option<nat> {
    if log == [] then None
    else
      match log[|log| - 1]
      case Create(m, scale) => if m == name then Some(scale) else LastScale(log[..|log| - 1], name)
      case _ => LastScale(log[..|log| - 1], name)
  }

  /** Each start is followed at once by its one watcher, and there are no other watchers. */
  ghost predicate Paired(log: seq<Act>) {
    && (forall k | 0 <= k < |log| && log[k].Start? ::
          k + 1 < |log| && log[k + 1].Spawn? && log[k + 1].name == log[k].name && log[k + 1].num == log[k].num)
    && (forall k | 0 <= k < |log| && log[k].Spawn? :: k > 0 && log[k - 1].Start?)
  }

  /** The settings given to the receive loop, in order. */
  function HandedOver(log: seq<Act>): seq<AionSetting> {
    if log == [] then []
    else
      var before := HandedOver(log[..|log| - 1]);
      if log[|log| - 1].HandOver? then before + [log[|log| - 1].setting] else before
  }

  /** The settings the loop has taken before it returned. */
  function AppliedSettings(evs: seq<Event>): seq<AionSetting> {
    if evs == [] then []
    else
      var before := AppliedSettings(evs[..|evs| - 1]);
      if evs[|evs| - 1].Apply? && ContextDone !in evs then before + [evs[|evs| - 1].setting] else before
  }

  /** The context made for the latest setting. */
  function LatestContext(evs: seq<Event>): Option<nat> {
    if AppliedSettings(evs) == [] then None else Some(|AppliedSettings(evs)| - 1)
  }

  // ---- The run invariant

  ghost predicate ServiceGood(b: State, name: string)
    requires name in b.list
  {
    var s := b.list[name];
    && LastScale(b.log, name) == Some(GetScale(s)) && NumberedUpTo(s, GetScale(s)) && AtMostOnce(s)
    && forall i | i in s.up :: s.up[i] == UpSince(b.log, name, i)
  }

  ghost predicate ServicesGood(b: State) {
    && (forall name | name in b.list :: ServiceGood(b, name))
    && (forall name :: name in b.list <==> LastScale(b.log, name).Some?)
    && Paired(b.log)
  }

  /** Exactly the context of the latest setting is live, while the loop runs; and every watcher runs under some context. */
  ghost predicate ContextsGood(b: State) {
    && b.cancel == b.childCtx == (if b.contexts == 0 then None else Some(b.contexts - 1))
    && (forall c | 0 <= c < b.contexts :: c !in b.cancelled <==> b.running && c == b.contexts - 1)
    && (forall c | c in b.cancelled :: c < b.contexts)
    && SpawnsGood(b.log, b.contexts) && |HandedOver(b.log)| == b.contexts
    && (b.contexts == 0 ==> b.list == map[])
  }

  /** A watcher is launched after its context's setting has been handed over, and before the next one is. */
  ghost predicate SpawnsGood(log: seq<Act>, contexts: nat) {
    forall k | 0 <= k < |log| && log[k].Spawn? ::
      log[k].ctx.Some? && log[k].ctx.value < contexts && |HandedOver(log[..k])| == log[k].ctx.value + 1
  }

  ghost predicate Good(b: State) {
    ServicesGood(b) && ContextsGood(b)
  }

  lemma UpSinceSnoc(log: seq<Act>, act: Act, name: string, num: int)
    ensures UpSince(log + [act], name, num) ==
            match act
            case Create(m, _) => if m == name then 0 else UpSince(log, name, num)
            case Start(m, k) => if m == name && k == num then 1 + UpSince(log, name, num) else UpSince(log, name, num)
            case Stop(m, k) => if m == name && k == num then 0 else UpSince(log, name, num)
            case Spawn(_, _, _) => UpSince(log, name, num)
            case HandOver(_) => UpSince(log, name, num)
    ensures LastScale(log + [act], name)
         == if act.Create? && act.name == name then Some(act.scale) else LastScale(log, name)
  {
    assert (log + [act])[..|log|] == log;
  }

  lemma PairedSnoc(log: seq<Act>, act: Act)
    requires Paired(log) && !act.Start? && !act.Spawn?
    ensures Paired(log + [act])
  {
  }

  lemma PairedTwo(log: seq<Act>, name: string, num: int, ctx: Option<nat>)
    requires Paired(log)
    ensures Paired(log + [Start(name, num), Spawn(name, num, ctx)])
  {
  }

  lemma LogTwo(log: seq<Act>, name: string, num: int, ctx: Option<nat>, m: string, k: int)
    ensures var log' := log + [Start(name, num), Spawn(name, num, ctx)];
            && UpSince(log', m, k) == UpSince(log, m, k) + (if m == name && k == num then 1 else 0)
            && LastScale(log', m) == LastScale(log, m)
  {
    var one := log + [Start(name, num)];
    assert log + [Start(name, num), Spawn(name, num, ctx)] == one + [Spawn(name, num, ctx)];
    UpSinceSnoc(one, Spawn(name, num, ctx), m, k);
    UpSinceSnoc(log, Start(name, num), m, k);
  }

  lemma StartNumberServices(b: State, name: string, num: int, ok: bool)
    requires ServicesGood(b)
    ensures ServicesGood(StartNumber(b, name, num, ok))
  {
    var b' := StartNumber(b, name, num, ok);
    if b' != b {
      assert ServiceGood(b, name);
      Outcomes(b.list[name], GetScale(b.list[name]), num, ok);
      PairedTwo(b.log, name, num, b.childCtx);
      forall m
        ensures LastScale(b'.log, m) == LastScale(b.log, m)
      {
        LogTwo(b.log, name, num, b.childCtx, m, 0);
      }
      forall m | m in b'.list
        ensures ServiceGood(b', m)
      {
        assert ServiceGood(b, m);
        forall k | k in b'.list[m].up
          ensures b'.list[m].up[k] == UpSince(b'.log, m, k)
        {
          LogTwo(b.log, name, num, b.childCtx, m, k);
        }
      }
    }
  }

  lemma StopNumberServices(b: State, name: string, num: int, ok: bool)
    requires ServicesGood(b)
    ensures ServicesGood(StopNumber(b, name, num, ok))
  {
    var b' := StopNumber(b, name, num, ok);
    if b' != b {
      assert ServiceGood(b, name);
      Outcomes(b.list[name], GetScale(b.list[name]), num, ok);
      PairedSnoc(b.log, Stop(name, num));
      forall m
        ensures LastScale(b'.log, m) == LastScale(b.log, m)
      {
        UpSinceSnoc(b.log, Stop(name, num), m, 0);
      }
      forall m | m in b'.list
        ensures ServiceGood(b', m)
      {
        assert ServiceGood(b, m);
        forall k | k in b'.list[m].up
          ensures b'.list[m].up[k] == UpSince(b'.log, m, k)
        {
          UpSinceSnoc(b.log, Stop(name, num), m, k);
        }
      }
    }
  }

  lemma CreateServices(b: State, name: string, ms: Microservice)
    requires ServicesGood(b)
    ensures ServicesGood(CreateService(b, name, ms))
  {
    var b', act := CreateService(b, name, ms), Create(name, ScaleOf(ms));
    NewScaleNumbered(ms);
    PairedSnoc(b.log, act);
    forall m
      ensures LastScale(b'.log, m) == if m == name then Some(ScaleOf(ms)) else LastScale(b.log, m)
    {
      UpSinceSnoc(b.log, act, m, 0);
    }
    forall m | m in b'.list
      ensures ServiceGood(b', m)
    {
      assert m != name ==> ServiceGood(b, m);
      forall k | k in b'.list[m].up
        ensures b'.list[m].up[k] == UpSince(b'.log, m, k)
      {
        UpSinceSnoc(b.log, act, m, k);
      }
    }
  }

  /** What the three small steps leave alone. */
  ghost predicate SameContexts(b: State, b': State) {
    && b'.cancel == b.cancel && b'.childCtx == b.childCtx && b'.contexts == b.contexts && b'.cancelled == b.cancelled
    && b'.running == b.running
    && b.log <= b'.log
    && forall k | |b.log| <= k < |b'.log| :: !b'.log[k].HandOver? && (b'.log[k].Spawn? ==> b'.log[k].ctx == b.childCtx)
  }

  lemma {:induction false} HandedOverSame(log: seq<Act>, n: nat, k: nat)
    requires n <= k <= |log| && forall i | n <= i < |log| :: !log[i].HandOver?
    ensures HandedOver(log[..k]) == HandedOver(log[..n])
    decreases k
  {
    if n < k {
      HandedOverSame(log, n, k - 1);
      assert log[..k][..k - 1] == log[..k - 1];
    }
  }

  lemma SameContextsThen(a: State, b: State, c: State)
    requires SameContexts(a, b) && SameContexts(b, c)
    ensures SameContexts(a, c)
  {
  }

  lemma StartNumberContexts(b: State, name: string, num: int, ok: bool)
    ensures SameContexts(b, StartNumber(b, name, num, ok))
  {
  }

  lemma StopNumberContexts(b: State, name: string, num: int, ok: bool)
    ensures SameContexts(b, StopNumber(b, name, num, ok))
  {
  }

  lemma {:induction false} StartUpToGood(b: State, name: string, n: nat, fails: Failures)
    requires ServicesGood(b)
    ensures ServicesGood(StartUpTo(b, name, n, fails)) && SameContexts(b, StartUpTo(b, name, n, fails))
    decreases n
  {
    if n > 0 {
      var before := StartUpTo(b, name, n - 1, fails);
      StartUpToGood(b, name, n - 1, fails);
      StartNumberServices(before, name, n, (name, n) !in fails);
      StartNumberContexts(before, name, n, (name, n) !in fails);
      SameContextsThen(b, before, StartUpTo(b, name, n, fails));
    }
  }

  lemma {:induction false} StopUpToGood(b: State, name: string, n: nat, fails: Failures)
    requires ServicesGood(b)
    ensures ServicesGood(StopUpTo(b, name, n, fails)) && SameContexts(b, StopUpTo(b, name, n, fails))
    decreases n
  {
    if n > 0 {
      var before := StopUpTo(b, name, n - 1, fails);
      StopUpToGood(b, name, n - 1, fails);
      StopNumberServices(before, name, n, (name, n) !in fails);
      StopNumberContexts(before, name, n, (name, n) !in fails);
      SameContextsThen(b, before, StopUpTo(b, name, n, fails));
    }
  }

  lemma {:induction false} StopAllGood(b: State, order: seq<string>, fails: Failures)
    requires ServicesGood(b)
    ensures ServicesGood(StopAll(b, order, fails)) && SameContexts(b, StopAll(b, order, fails))
    decreases |order|
  {
    if order != [] {
      var before, name := StopAll(b, order[..|order| - 1], fails), order[|order| - 1];
      StopAllGood(b, order[..|order| - 1], fails);
      if name in before.list {
        StopUpToGood(before, name, GetScale(before.list[name]), fails);
        SameContextsThen(b, before, StopAll(b, order, fails));
      }
    }
  }

  lemma {:induction false} CreateAllGood(b: State, order: seq<string>, services: map<string, Microservice>)
    requires ServicesGood(b)
    ensures ServicesGood(CreateAll(b, order, services)) && SameContexts(b, CreateAll(b, order, services))
    decreases |order|
  {
    if order != [] {
      var before, name := CreateAll(b, order[..|order| - 1], services), order[|order| - 1];
      CreateAllGood(b, order[..|order| - 1], services);
      if name in services {
        CreateServices(before, name, services[name]);
        SameContextsThen(b, before, CreateAll(b, order, services));
      }
    }
  }

  lemma {:induction false} StartStartupsGood(b: State, order: seq<string>, services: map<string, Microservice>, fails: Failures)
    requires ServicesGood(b)
    ensures ServicesGood(StartStartups(b, order, services, fails))
    ensures SameContexts(b, StartStartups(b, order, services, fails))
    decreases |order|
  {
    if order != [] {
      var before, name := StartStartups(b, order[..|order| - 1], services, fails), order[|order| - 1];
      StartStartupsGood(b, order[..|order| - 1], services, fails);
      if name in services && services[name].startup && name in before.list {
        StartUpToGood(before, name, GetScale(before.list[name]), fails);
        SameContextsThen(b, before, StartStartups(b, order, services, fails));
      }
    }
  }

  lemma SameContextsGood(b: State, b': State)
    requires ContextsGood(b) && b.contexts > 0 && SameContexts(b, b')
    ensures ContextsGood(b') && HandedOver(b'.log) == HandedOver(b.log)
  {
    assert b'.log[..|b.log|] == b.log && b'.log[..|b'.log|] == b'.log;
    HandedOverSame(b'.log, |b.log|, |b'.log|);
    forall k | 0 <= k < |b'.log| && b'.log[k].Spawn?
      ensures b'.log[k].ctx.Some? && b'.log[k].ctx.value < b'.contexts && |HandedOver(b'.log[..k])| == b'.log[k].ctx.value + 1
    {
      if k < |b.log| {
        assert b'.log[k] == b.log[k] && b'.log[..k] == b.log[..k];
      } else {
        HandedOverSame(b'.log, |b.log|, k);
      }
    }
  }

  // ---- The order of an apply

  datatype Phase = Stopping | HandingOver | Creating | Starting

  function PhaseOf(act: Act): Phase {
    match act
    case Stop(_, _) => Stopping
    case HandOver(_) => HandingOver
    case Create(_, _) => Creating
    case Start(_, _) => Starting
    case Spawn(_, _, _) => Starting
  }

  /** What may follow: stops up to the hand-over, then the new containers, then starts until the next apply. */
  predicate Follows(before: Phase, next: Phase) {
    match before
    case Stopping => next.Stopping? || next.HandingOver?
    case HandingOver => true
    case Creating => true
    case Starting => !next.Creating?
  }

  ghost predicate InPhases(log: seq<Act>) {
    && (forall k | 0 < k < |log| :: Follows(PhaseOf(log[k - 1]), PhaseOf(log[k])))
    && (log != [] ==> !log[0].Create?)
  }

  ghost predicate Adds(b: State, b': State, phase: Phase) {
    b.log <= b'.log && forall k | |b.log| <= k < |b'.log| :: PhaseOf(b'.log[k]) == phase
  }

  lemma {:induction false} StopUpToAdds(b: State, name: string, n: nat, fails: Failures)
    ensures Adds(b, StopUpTo(b, name, n, fails), Stopping)
    decreases n
  {
    if n > 0 {
      StopUpToAdds(b, name, n - 1, fails);
    }
  }

  lemma {:induction false} StopAllAdds(b: State, order: seq<string>, fails: Failures)
    ensures Adds(b, StopAll(b, order, fails), Stopping)
    decreases |order|
  {
    if order != [] {
      var before, name := StopAll(b, order[..|order| - 1], fails), order[|order| - 1];
      StopAllAdds(b, order[..|order| - 1], fails);
      if name in before.list {
        StopUpToAdds(before, name, GetScale(before.list[name]), fails);
      }
    }
  }

  lemma {:induction false} CreateAllAdds(b: State, order: seq<string>, services: map<string, Microservice>)
    ensures Adds(b, CreateAll(b, order, services), Creating)
    decreases |order|
  {
    if order != [] {
      CreateAllAdds(b, order[..|order| - 1], services);
    }
  }

  lemma {:induction false} StartUpToAdds(b: State, name: string, n: nat, fails: Failures)
    ensures Adds(b, StartUpTo(b, name, n, fails), Starting)
    decreases n
  {
    if n > 0 {
      StartUpToAdds(b, name, n - 1, fails);
    }
  }

  lemma {:induction false} StartStartupsAdds(b: State, order: seq<string>, services: map<string, Microservice>, fails: Failures)
    ensures Adds(b, StartStartups(b, order, services, fails), Starting)
    decreases |order|
  {
    if order != [] {
      var before, name := StartStartups(b, order[..|order| - 1], services, fails), order[|order| - 1];
      StartStartupsAdds(b, order[..|order| - 1], services, fails);
      if name in services && services[name].startup && name in before.list {
        StartUpToAdds(before, name, GetScale(before.list[name]), fails);
      }
    }
  }

  ghost predicate MayEnd(log: seq<Act>) {
    log != [] ==> !log[|log| - 1].Stop?
  }

  lemma PhasesAppend(b: State, b': State, phase: Phase)
    requires InPhases(b.log) && Adds(b, b', phase)
    requires b.log == [] ==> !phase.Creating?
    requires b.log != [] ==> Follows(PhaseOf(b.log[|b.log| - 1]), phase)
    ensures InPhases(b'.log)
    ensures b'.log != b.log ==> PhaseOf(b'.log[|b'.log| - 1]) == phase
  {
  }

  lemma CurrentInPhases(current: State, orders: Orders, services: map<string, Microservice>, fails: Failures)
    requires InPhases(current.log) && current.log != [] && current.log[|current.log| - 1].HandOver?
    ensures var started := StartStartups(CreateAll(current, orders.create, services), orders.start, services, fails);
            InPhases(started.log) && MayEnd(started.log)
  {
    var created := CreateAll(current, orders.create, services);
    CreateAllAdds(current, orders.create, services);
    PhasesAppend(current, created, Creating);
    StartStartupsAdds(created, orders.start, services, fails);
    PhasesAppend(created, StartStartups(created, orders.start, services, fails), Starting);
  }

  lemma AppliedInPhases(b: State, setting: AionSetting, stopFails: Failures, startFails: Failures, orders: Orders)
    requires InPhases(b.log) && MayEnd(b.log)
    ensures InPhases(Applied(b, setting, stopFails, startFails, orders).log)
    ensures MayEnd(Applied(b, setting, stopFails, startFails, orders).log)
  {
    var stopped := StopAll(NewContext(b), orders.stop, stopFails);
    var current := TakeOver(stopped, setting);
    StopAllAdds(NewContext(b), orders.stop, stopFails);
    PhasesAppend(NewContext(b), stopped, Stopping);
    PhasesAppend(stopped, current, HandingOver);
    CurrentInPhases(current, orders, setting.microservices, startFails);
  }

  /**
   In every run the controller stops instances only on the way to a hand-over, makes containers only right after one, and
   starts instances only after both: what still runs of an older setting was asked to stop before the watchers got the new one.
   */
  lemma {:induction false} StopsBeforeHandOver(evs: seq<Event>)
    ensures InPhases(Run(INIT, evs).log) && MayEnd(Run(INIT, evs).log)
    decreases |evs|
  {
    if evs != [] {
      var b, ev := Run(INIT, evs[..|evs| - 1]), evs[|evs| - 1];
      StopsBeforeHandOver(evs[..|evs| - 1]);
      if b.running && ev.Apply? {
        AppliedInPhases(b, ev.setting, ev.stopFails, ev.startFails, ev.orders);
      }
    }
  }

  // ---- One event

  /** With the new context, after the stops and the hand-over, the contexts are in order again. */
  lemma TakenOverGood(b: State, stopped: State, setting: AionSetting)
    requires ContextsGood(b) && b.running
    requires SameContexts(NewContext(b), stopped) && Adds(b, stopped, Stopping)
    ensures ContextsGood(TakeOver(stopped, setting))
    ensures HandedOver(TakeOver(stopped, setting).log) == HandedOver(b.log) + [setting]
  {
    var log := TakeOver(stopped, setting).log;
    assert HandedOver(log) == HandedOver(b.log) + [setting] by {
      assert stopped.log[..|b.log|] == b.log && stopped.log[..|stopped.log|] == stopped.log;
      HandedOverSame(stopped.log, |b.log|, |stopped.log|);
      assert log[..|log| - 1] == stopped.log;
    }
    forall k | 0 <= k < |log| && log[k].Spawn?
      ensures log[k].ctx.Some? && log[k].ctx.value < b.contexts + 1 && |HandedOver(log[..k])| == log[k].ctx.value + 1
    {
      assert k < |b.log|;
      assert log[k] == b.log[k] && log[..k] == b.log[..k];
    }
  }

  lemma HandOverServices(b: State, setting: AionSetting)
    requires ServicesGood(b)
    ensures ServicesGood(TakeOver(b, setting))
  {
    var b' := TakeOver(b, setting);
    PairedSnoc(b.log, HandOver(setting));
    forall m
      ensures LastScale(b'.log, m) == LastScale(b.log, m)
    {
      UpSinceSnoc(b.log, HandOver(setting), m, 0);
    }
    forall m | m in b'.list
      ensures ServiceGood(b', m)
    {
      assert ServiceGood(b, m);
      forall k | k in b'.list[m].up
        ensures b'.list[m].up[k] == UpSince(b'.log, m, k)
      {
        UpSinceSnoc(b.log, HandOver(setting), m, k);
      }
    }
  }

  lemma AppliedGood(b: State, setting: AionSetting, stopFails: Failures, startFails: Failures, orders: Orders)
    requires Good(b) && b.running
    ensures Good(Applied(b, setting, stopFails, startFails, orders))
    ensures var b' := Applied(b, setting, stopFails, startFails, orders);
            b'.contexts == b.contexts + 1 && b'.running && HandedOver(b'.log) == HandedOver(b.log) + [setting]
  {
    var renewed := NewContext(b);
    var stopped := StopAll(renewed, orders.stop, stopFails);
    var current := TakeOver(stopped, setting);
    var created := CreateAll(current, orders.create, setting.microservices);
    var started := StartStartups(created, orders.start, setting.microservices, startFails);
    SameServices(b, renewed);
    StopAllGood(renewed, orders.stop, stopFails);
    StopAllAdds(renewed, orders.stop, stopFails);
    TakenOverGood(b, stopped, setting);
    HandOverServices(stopped, setting);
    CreateAllGood(current, orders.create, setting.microservices);
    StartStartupsGood(created, orders.start, setting.microservices, startFails);
    SameContextsThen(current, created, started);
    SameContextsGood(current, started);
  }

  lemma SameServices(b: State, b': State)
    requires ServicesGood(b) && b'.list == b.list && b'.log == b.log
    ensures ServicesGood(b')
  {
    forall name | name in b'.list
      ensures ServiceGood(b', name)
    {
      assert ServiceGood(b, name);
    }
  }

  lemma StepGood(b: State, ev: Event)
    requires Good(b)
    ensures Good(Step(b, ev))
    ensures HandedOver(Step(b, ev).log)
         == if b.running && ev.Apply? then HandedOver(b.log) + [ev.setting] else HandedOver(b.log)
    ensures Step(b, ev).running <==> b.running && !ev.ContextDone?
  {
    if b.running {
      match ev {
        case Apply(setting, stopFails, startFails, orders) => AppliedGood(b, setting, stopFails, startFails, orders);
        case Request(name, num, ok) =>
          StartNumberServices(b, name, num, ok);
          if b.contexts > 0 {
            SameContextsGood(b, StartNumber(b, name, num, ok));
          }
        case ContextDone => SameServices(b, Step(b, ev));
      }
    }
  }

  lemma {:induction false} RunGood(evs: seq<Event>)
    ensures var b := Run(INIT, evs);
            Good(b) && HandedOver(b.log) == AppliedSettings(evs) && (b.running <==> ContextDone !in evs)
    decreases |evs|
  {
    if evs != [] {
      RunGood(evs[..|evs| - 1]);
      StepGood(Run(INIT, evs[..|evs| - 1]), evs[|evs| - 1]);
      DoneSnoc(evs);
    }
  }

  /** Exactly one instance's counter grows, by one, and the log by its start and its watcher. */
  ghost predicate OneMoreUp(b: State, b': State, name: string, num: int, ctx: Option<nat>) {
    && b' == b.(list := b'.list, log := b'.log) && OthersSame(b, b', name) && name in b.list
    && b'.list[name] == b.list[name].(up := b.list[name].up[num := UpSince(b.log, name, num) + 1])
    && b'.log == b.log + [Start(name, num), Spawn(name, num, ctx)]
  }

  /** The service has that number, and may run multiply or does not have it up. */
  predicate Startable(b: State, name: string, num: int) {
    && name in b.list && LastScale(b.log, name).Some? && 1 <= num <= LastScale(b.log, name).value
    && (b.list[name].multiple || UpSince(b.log, name, num) == 0)
  }

  lemma RequestStep(b: State, name: string, num: int, ok: bool)
    requires ServicesGood(b)
    ensures var b' := StartNumber(b, name, num, ok);
            if Startable(b, name, num) && ok then OneMoreUp(b, b', name, num, b.childCtx) else b' == b
  {
    if name in b.list {
      assert ServiceGood(b, name);
      Outcomes(b.list[name], GetScale(b.list[name]), num, ok);
    }
  }

  /**
   A start request in any reachable state: something happens exactly when the loop still runs, the service is known and has
   that number, it may run multiply or that instance is not up, and its process starts. Then exactly that instance's counter
   grows, by one, and the log by its start and its watcher, under the latest setting's context.
   */
  lemma RequestResult(evs: seq<Event>, name: string, num: int, ok: bool)
    ensures var b := Run(INIT, evs);
            var b' := Step(b, Request(name, num, ok));
            && (b' != b <==> ContextDone !in evs && Startable(b, name, num) && ok)
            && (b' != b ==> OneMoreUp(b, b', name, num, LatestContext(evs)))
  {
    var b := Run(INIT, evs);
    RunGood(evs);
    RequestStep(b, name, num, ok);
  }

  lemma DoneSnoc(evs: seq<Event>)
    requires evs != []
    ensures ContextDone in evs <==> ContextDone in evs[..|evs| - 1] || evs[|evs| - 1] == ContextDone
  {
    assert evs == evs[..|evs| - 1] + [evs[|evs| - 1]];
  }

  /**
   In every reachable state, whatever starts and stops failed: each known service has exactly the instances 1..scale,
   scale being the one it was last created with; each counter is the number of successful starts since the last
   successful stop or re-creation; it is at most 1 unless the service may run multiply; and every successful start has
   launched exactly one watcher, at once.
   */
  lemma RunInvariant(evs: seq<Event>)
    ensures var b := Run(INIT, evs);
            && Paired(b.log)
            && forall name | name in b.list ::
                 && LastScale(b.log, name).Some?
                 && (forall i :: i in b.list[name].up <==> 1 <= i <= LastScale(b.log, name).value)
                 && (forall i | i in b.list[name].up :: b.list[name].up[i] == UpSince(b.log, name, i))
                 && (!b.list[name].multiple ==> forall i | i in b.list[name].up :: b.list[name].up[i] <= 1)
  {
    RunGood(evs);
    var b := Run(INIT, evs);
    forall name | name in b.list
      ensures ServiceGood(b, name)
    {
    }
  }

  /**
   The settings handed over are the settings applied, in order. Every watcher ever launched runs under the context of one
   of them, never under the unset one, and was launched after that setting had been handed over and before the next one
   was; its context is live exactly if the setting is the latest and the loop has not ended. Before the first setting
   nothing is known, so a start request cannot get as far as launching a watcher; after the end nothing changes any more.
   */
  lemma GenerationSafety(evs: seq<Event>)
    ensures var b := Run(INIT, evs);
            && HandedOver(b.log) == AppliedSettings(evs)
            && (forall k | 0 <= k < |b.log| && b.log[k].Spawn? ::
                  && b.log[k].ctx.Some? && b.log[k].ctx.value < |AppliedSettings(evs)|
                  && |HandedOver(b.log[..k])| == b.log[k].ctx.value + 1
                  && (b.log[k].ctx.value !in b.cancelled <==>
                      ContextDone !in evs && b.log[k].ctx.value == |AppliedSettings(evs)| - 1))
            && (AppliedSettings(evs) == [] ==> forall name, num, ok :: Step(b, Request(name, num, ok)) == b)
            && (ContextDone in evs ==> forall ev :: Step(b, ev) == b)
  {
    RunGood(evs);
  }

  // ---- What an apply results in

  ghost predicate Enumerates(order: seq<string>, names: set<string>) {
    && (forall name :: name in order <==> name in names)
    && forall i, j | 0 <= i < j < |order| :: order[i] != order[j]
  }

  /** Stopping all instances: those that do stop have counter 0, the others keep theirs. */
  ghost predicate StoppedAs(s: Scale, s': Scale, name: string, fails: Failures) {
    && s'.multiple == s.multiple && s'.up.Keys == s.up.Keys
    && forall i | i in s.up :: s'.up[i] == if (name, i) in fails then s.up[i] else 0
  }

  /** Starting all instances of a new container once. */
  ghost predicate StartedOnce(s: Scale, name: string, n: nat, fails: Failures) {
    NumberedUpTo(s, n) && forall i | i in s.up :: s.up[i] == if (name, i) in fails then 0 else 1
  }

  /**
   A container made for a service: its instances are 1..scale, it may run multiply if the service may, and every counter
   is 0, or 1 where a startup service's process did start.
   */
  ghost predicate ContainerFor(s: Scale, name: string, ms: Microservice, fails: Failures) {
    && s.multiple == ms.multiple && (forall i :: i in s.up <==> 1 <= i <= ms.scale)
    && forall i | i in s.up :: s.up[i] == if ms.startup && (name, i) !in fails then 1 else 0
  }

  ghost predicate OthersSame(b: State, b': State, name: string) {
    b'.list.Keys == b.list.Keys && forall m | m in b.list && m != name :: b'.list[m] == b.list[m]
  }

  /** Of the instances 1..n those that do stop have counter 0; the others keep theirs. */
  ghost predicate StoppedUpTo(s: Scale, s': Scale, name: string, n: nat, fails: Failures) {
    && s'.multiple == s.multiple && s'.up.Keys == s.up.Keys
    && forall i | i in s.up :: s'.up[i] == if i > n || (name, i) in fails then s.up[i] else 0
  }

  lemma StopsOneMore(s: Scale, s': Scale, name: string, n: nat, fails: Failures, ok: bool)
    requires NumberedUpTo(s, GetScale(s)) && 0 < n <= GetScale(s) && StoppedUpTo(s, s', name, n - 1, fails)
    requires ok <==> (name, n) !in fails
    ensures StoppedUpTo(s, Stopped(s', n, ok), name, n, fails)
  {
    SameNumbers(s, s');
    Outcomes(s', GetScale(s), n, ok);
    if StopOutcome(s', n, ok).Done? {
      assert s'.up[n := 0].Keys == s'.up.Keys;
    }
  }

  lemma SameNumbers(s: Scale, s': Scale)
    requires NumberedUpTo(s, GetScale(s)) && s'.up.Keys == s.up.Keys
    ensures NumberedUpTo(s', GetScale(s))
  {
    assert |s'.up.Keys| == |s.up.Keys|;
  }

  lemma {:induction false} StopUpToEffect(b: State, name: string, n: nat, fails: Failures)
    requires name in b.list && NumberedUpTo(b.list[name], GetScale(b.list[name])) && n <= GetScale(b.list[name])
    ensures var b' := StopUpTo(b, name, n, fails);
            OthersSame(b, b', name) && StoppedUpTo(b.list[name], b'.list[name], name, n, fails)
    decreases n
  {
    if n > 0 {
      StopUpToEffect(b, name, n - 1, fails);
      StopsOneMore(b.list[name], StopUpTo(b, name, n - 1, fails).list[name], name, n, fails, (name, n) !in fails);
    }
  }

  /** Of the instances 1..n those that do start have counter 1; the others have 0. */
  ghost predicate StartedUpTo(s: Scale, name: string, n: nat, fails: Failures) {
    forall i | i in s.up :: s.up[i] == if i > n || (name, i) in fails then 0 else 1
  }

  lemma StartsOneMore(s: Scale, name: string, k: nat, n: nat, fails: Failures, ok: bool)
    requires NumberedUpTo(s, k) && 0 < n <= k && StartedUpTo(s, name, n - 1, fails)
    requires ok <==> (name, n) !in fails
    ensures Started(s, n, ok).multiple == s.multiple
    ensures NumberedUpTo(Started(s, n, ok), k) && StartedUpTo(Started(s, n, ok), name, n, fails)
  {
    Outcomes(s, k, n, ok);
  }

  lemma {:induction false} StartUpToEffect(b: State, name: string, n: nat, fails: Failures)
    requires name in b.list && NumberedUpTo(b.list[name], GetScale(b.list[name])) && n <= GetScale(b.list[name])
    requires forall i | i in b.list[name].up :: b.list[name].up[i] == 0
    ensures var b' := StartUpTo(b, name, n, fails);
            && OthersSame(b, b', name) && NumberedUpTo(b'.list[name], GetScale(b.list[name]))
            && b'.list[name].multiple == b.list[name].multiple
            && StartedUpTo(b'.list[name], name, n, fails)
    decreases n
  {
    if n > 0 {
      StartUpToEffect(b, name, n - 1, fails);
      StartsOneMore(StartUpTo(b, name, n - 1, fails).list[name], name, GetScale(b.list[name]), n, fails, (name, n) !in fails);
    }
  }

  ghost predicate AllNumbered(b: State) {
    forall name | name in b.list :: NumberedUpTo(b.list[name], GetScale(b.list[name]))
  }

  lemma StopServiceEffect(b: State, name: string, fails: Failures)
    requires AllNumbered(b) && name in b.list
    ensures var b' := StopService(b, name, fails);
            AllNumbered(b') && OthersSame(b, b', name) && StoppedAs(b.list[name], b'.list[name], name, fails)
  {
    StopUpToEffect(b, name, GetScale(b.list[name]), fails);
    SameNumbers(b.list[name], StopService(b, name, fails).list[name]);
  }

  lemma {:induction false} StopAllEffect(b: State, order: seq<string>, fails: Failures)
    requires AllNumbered(b)
    requires forall i, j | 0 <= i < j < |order| :: order[i] != order[j]
    ensures var b' := StopAll(b, order, fails);
            && AllNumbered(b') && b'.list.Keys == b.list.Keys
            && forall m | m in b.list :: if m in order then StoppedAs(b.list[m], b'.list[m], m, fails) else b'.list[m] == b.list[m]
    decreases |order|
  {
    if order != [] {
      var front, name := order[..|order| - 1], order[|order| - 1];
      var before := StopAll(b, front, fails);
      StopAllEffect(b, front, fails);
      assert name !in front;
      assert forall m :: m in order <==> m in front || m == name;
      if name in before.list {
        StopServiceEffect(before, name, fails);
      }
    }
  }

  lemma {:induction false} CreateAllEffect(b: State, order: seq<string>, services: map<string, Microservice>)
    requires forall name | name in order :: name in services
    ensures var b' := CreateAll(b, order, services);
            && (forall m :: m in b'.list <==> m in b.list || m in order)
            && forall m | m in b'.list :: b'.list[m] == if m in order then NewScale(services[m]) else b.list[m]
    decreases |order|
  {
    if order != [] {
      var front, name := order[..|order| - 1], order[|order| - 1];
      CreateAllEffect(b, front, services);
      assert forall m :: m in order <==> m in front || m == name;
    }
  }

  lemma {:induction false} StartStartupsEffect(b: State, order: seq<string>, services: map<string, Microservice>, fails: Failures)
    requires forall name | name in order :: name in services && name in b.list && b.list[name] == NewScale(services[name])
    requires forall i, j | 0 <= i < j < |order| :: order[i] != order[j]
    ensures var b' := StartStartups(b, order, services, fails);
            && b'.list.Keys == b.list.Keys
            && forall m | m in b.list ::
                 && b'.list[m].multiple == b.list[m].multiple
                 && if m in order && services[m].startup then StartedOnce(b'.list[m], m, ScaleOf(services[m]), fails)
                    else b'.list[m] == b.list[m]
    decreases |order|
  {
    if order != [] {
      var front, name := order[..|order| - 1], order[|order| - 1];
      var before := StartStartups(b, front, services, fails);
      StartStartupsEffect(b, front, services, fails);
      assert name !in front;
      assert forall m :: m in order <==> m in front || m == name;
      NewScaleNumbered(services[name]);
      if services[name].startup {
        StartUpToEffect(before, name, GetScale(before.list[name]), fails);
      }
    }
  }

  ghost predicate OrdersFor(b: State, setting: AionSetting, orders: Orders) {
    && Enumerates(orders.stop, b.list.Keys)
    && Enumerates(orders.create, setting.microservices.Keys)
    && Enumerates(orders.start, setting.microservices.Keys)
  }

  /**
   After an apply in any reachable state, in whatever order the maps are ranged over and whatever fails: every startup
   service of the setting has counter 1 on each of 1..scale, except where its process did not start; every other service of
   the setting has counter 0; a service that is no longer in the setting is still known, with counter 0 except where
   its process did not stop.
   */
  lemma ApplyResult(evs: seq<Event>, setting: AionSetting, stopFails: Failures, startFails: Failures, orders: Orders)
    requires ContextDone !in evs && OrdersFor(Run(INIT, evs), setting, orders)
    ensures var b := Run(INIT, evs);
            var b' := Step(b, Apply(setting, stopFails, startFails, orders));
            && b'.setting == Some(setting)
            && b'.list.Keys == b.list.Keys + setting.microservices.Keys
            && (forall m | m in setting.microservices :: ContainerFor(b'.list[m], m, setting.microservices[m], startFails))
            && (forall m | m in b.list && m !in setting.microservices :: StoppedAs(b.list[m], b'.list[m], m, stopFails))
  {
    var b := Run(INIT, evs);
    RunGood(evs);
    forall name | name in b.list
      ensures NumberedUpTo(b.list[name], GetScale(b.list[name]))
    {
      assert ServiceGood(b, name);
    }
    AppliedEffect(b, setting, stopFails, startFails, orders);
  }

  /** Every apply of the run ranges over its maps in some order. */
  ghost predicate InOrders(evs: seq<Event>) {
    forall n | 0 <= n < |evs| && evs[n].Apply? :: OrdersFor(Run(INIT, evs[..n]), evs[n].setting, evs[n].orders)
  }

  /** What the latest setting that has the service says of it. */
  function Configured(settings: seq<AionSetting>, name: string): Option<Microservice> {
    if settings == [] then None
    else
      var last := settings[|settings| - 1];
      if name in last.microservices then Some(last.microservices[name]) else Configured(settings[..|settings| - 1], name)
  }

  ghost predicate KnownAs(b: State, name: string, ms: Option<Microservice>) {
    && (name in b.list <==> ms.Some?)
    && (name in b.list ==>
          && b.list[name].multiple == ms.value.multiple
          && forall i :: i in b.list[name].up <==> 1 <= i <= ms.value.scale)
  }

  lemma ConfiguredSnoc(settings: seq<AionSetting>, last: AionSetting, name: string)
    ensures Configured(settings + [last], name)
         == if name in last.microservices then Some(last.microservices[name]) else Configured(settings, name)
  {
    assert (settings + [last])[..|settings|] == settings;
  }

  lemma KnownApplied(evs: seq<Event>, ev: Event, name: string, ms: Option<Microservice>)
    requires ContextDone !in evs && ev.Apply? && OrdersFor(Run(INIT, evs), ev.setting, ev.orders)
    requires KnownAs(Run(INIT, evs), name, ms)
    ensures var services := ev.setting.microservices;
            KnownAs(Step(Run(INIT, evs), ev), name, if name in services then Some(services[name]) else ms)
  {
    var b, b' := Run(INIT, evs), Step(Run(INIT, evs), ev);
    ApplyResult(evs, ev.setting, ev.stopFails, ev.startFails, ev.orders);
    if name in ev.setting.microservices {
      assert ContainerFor(b'.list[name], name, ev.setting.microservices[name], ev.startFails);
    } else if name in b.list {
      assert StoppedAs(b.list[name], b'.list[name], name, ev.stopFails);
    }
  }

  lemma KnownRequested(evs: seq<Event>, ev: Event, name: string, ms: Option<Microservice>)
    requires ev.Request? && KnownAs(Run(INIT, evs), name, ms)
    ensures KnownAs(Step(Run(INIT, evs), ev), name, ms)
  {
    var b, b' := Run(INIT, evs), Step(Run(INIT, evs), ev);
    RequestResult(evs, ev.name, ev.num, ev.ok);
    if b' != b && name == ev.name {
      assert ev.num in b.list[name].up by {
        RunInvariant(evs);
      }
    }
  }

  lemma InOrdersFront(evs: seq<Event>)
    requires evs != [] && InOrders(evs)
    ensures InOrders(evs[..|evs| - 1])
    ensures var ev := evs[|evs| - 1];
            ev.Apply? ==> OrdersFor(Run(INIT, evs[..|evs| - 1]), ev.setting, ev.orders)
  {
    var front := evs[..|evs| - 1];
    assert forall n | 0 <= n < |front| :: front[..n] == evs[..n] && front[n] == evs[n];
  }

  /** After any run, a service is known exactly if some setting applied had it, and then as the latest such setting has it. */
  lemma {:induction false} KnownServices(evs: seq<Event>, name: string)
    requires InOrders(evs)
    ensures KnownAs(Run(INIT, evs), name, Configured(AppliedSettings(evs), name))
    decreases |evs|
  {
    if evs != [] {
      var front, ev := evs[..|evs| - 1], evs[|evs| - 1];
      var ms := Configured(AppliedSettings(front), name);
      InOrdersFront(evs);
      KnownServices(front, name);
      RunGood(front);
      DoneSnoc(evs);
      if ContextDone !in front {
        match ev {
          case Apply(setting, _, _, _) =>
            KnownApplied(front, ev, name, ms);
            ConfiguredSnoc(AppliedSettings(front), setting, name);
          case Request(_, _, _) => KnownRequested(front, ev, name, ms);
          case ContextDone =>
        }
      }
    }
  }

  /** Before the startup services are started: every service of the setting is new, the others have been stopped. */
  lemma CreatedEffect(b: State, setting: AionSetting, stopFails: Failures, orders: Orders)
    requires AllNumbered(b) && OrdersFor(b, setting, orders)
    ensures var stopped := TakeOver(StopAll(NewContext(b), orders.stop, stopFails), setting);
            var b' := CreateAll(stopped, orders.create, setting.microservices);
            && b'.setting == Some(setting)
            && b'.list.Keys == b.list.Keys + setting.microservices.Keys
            && (forall m | m in setting.microservices :: b'.list[m] == NewScale(setting.microservices[m]))
            && (forall m | m in b.list && m !in setting.microservices :: StoppedAs(b.list[m], b'.list[m], m, stopFails))
  {
    var stopped := TakeOver(StopAll(NewContext(b), orders.stop, stopFails), setting);
    assert AllNumbered(NewContext(b));
    StopAllEffect(NewContext(b), orders.stop, stopFails);
    CreateAllEffect(stopped, orders.create, setting.microservices);
    SettingKept(stopped, orders.create, setting.microservices);
  }

  lemma AppliedEffect(b: State, setting: AionSetting, stopFails: Failures, startFails: Failures, orders: Orders)
    requires AllNumbered(b) && OrdersFor(b, setting, orders)
    ensures var b' := Applied(b, setting, stopFails, startFails, orders);
            && b'.setting == Some(setting)
            && b'.list.Keys == b.list.Keys + setting.microservices.Keys
            && (forall m | m in setting.microservices :: ContainerFor(b'.list[m], m, setting.microservices[m], startFails))
            && (forall m | m in b.list && m !in setting.microservices :: StoppedAs(b.list[m], b'.list[m], m, stopFails))
  {
    var services := setting.microservices;
    var stopped := TakeOver(StopAll(NewContext(b), orders.stop, stopFails), setting);
    var created := CreateAll(stopped, orders.create, services);
    CreatedEffect(b, setting, stopFails, orders);
    StartStartupsEffect(created, orders.start, services, startFails);
    StartsKeepSetting(created, orders.start, services, startFails);
    forall m | m in services
      ensures ContainerFor(Applied(b, setting, stopFails, startFails, orders).list[m], m, services[m], startFails)
    {
      NewScaleNumbered(services[m]);
    }
  }

  lemma {:induction false} SettingKept(b: State, order: seq<string>, services: map<string, Microservice>)
    ensures CreateAll(b, order, services).setting == b.setting
    decreases |order|
  {
    if order != [] {
      SettingKept(b, order[..|order| - 1], services);
    }
  }

  lemma {:induction false} StartsKeepSetting(b: State, order: seq<string>, services: map<string, Microservice>, fails: Failures)
    ensures StartStartups(b, order, services, fails).setting == b.setting
    decreases |order|
  {
    if order != [] {
      var before, name := StartStartups(b, order[..|order| - 1], services, fails), order[|order| - 1];
      StartsKeepSetting(b, order[..|order| - 1], services, fails);
      if name in before.list {
        StartUpToKeepsSetting(before, name, GetScale(before.list[name]), fails);
      }
    }
  }

  lemma {:induction false} StartUpToKeepsSetting(b: State, name: string, n: nat, fails: Failures)
    ensures StartUpTo(b, name, n, fails).setting == b.setting
    decreases n
  {
    if n > 0 {
      StartUpToKeepsSetting(b, name, n - 1, fails);
    }
  }
}
