/** The controller object itself: its methods do to the fields what the functions of `Broker` say. */
module Controller {
  import opened Basics
  import opened Settings
  import opened Containers
  import opened Broker

  /** What reaches the loop: a setting, a start request, or the end of the context. */
  datatype Arrival =
    | SettingArrived(setting: AionSetting, stopFails: Failures, startFails: Failures)
    | StartRequested(name: string, num: int, ok: bool)
    | Ended

  /** The event is the arrival, with some order of ranging over the maps. */
  predicate Handles(ev: Event, arrival: Arrival) {
    match arrival
    case SettingArrived(setting, stopFails, startFails) =>
      ev.Apply? && ev.setting == setting && ev.stopFails == stopFails && ev.startFails == startFails
    case StartRequested(name, num, ok) => ev == Request(name, num, ok)
    case Ended => ev == ContextDone
  }

  predicate HandlesFirst(evs: seq<Event>, arrivals: seq<Arrival>) {
    |evs| <= |arrivals| && forall n | 0 <= n < |evs| :: Handles(evs[n], arrivals[n])
  }

  lemma HandlesMore(evs: seq<Event>, ev: Event, arrivals: seq<Arrival>)
    requires HandlesFirst(evs, arrivals) && InOrders(evs) && |evs| < |arrivals|
    requires Handles(ev, arrivals[|evs|]) && (ev.Apply? ==> OrdersFor(Run(INIT, evs), ev.setting, ev.orders))
    ensures HandlesFirst(evs + [ev], arrivals) && InOrders(evs + [ev])
    ensures Run(INIT, evs + [ev]) == Step(Run(INIT, evs), ev)
    ensures Run(INIT, evs).running ==> (Run(INIT, evs + [ev]).running <==> !arrivals[|evs|].Ended?)
  {
    RunSnoc(evs, ev);
    InOrdersSnoc(evs, ev);
  }

  lemma InOrdersSnoc(evs: seq<Event>, ev: Event)
    requires InOrders(evs) && (ev.Apply? ==> OrdersFor(Run(INIT, evs), ev.setting, ev.orders))
    ensures InOrders(evs + [ev])
  {
    var more := evs + [ev];
    forall n | 0 <= n < |more| && more[n].Apply?
      ensures OrdersFor(Run(INIT, more[..n]), more[n].setting, more[n].orders)
    {
      assert more[..n] == evs[..n];
      assert n == |evs| ==> evs[..n] == evs;
    }
  }

  class MicroserviceController {
    var microserviceList: map<string, ScaleContainer>
    var aionSetting: Option<AionSetting>
    var cancel: Option<nat>
    var childCtx: Option<nat>
    var contexts: nat
    var cancelled: set<nat>
    var log: seq<Act>
    ghost var running: bool
    ghost var containers: set<ScaleContainer>

    /** Every service has a container object of its own; `containers` are all there ever were. */
    ghost predicate Valid()
      reads `microserviceList, `containers
    {
      && (forall m | m in microserviceList :: microserviceList[m] in containers)
      && (forall m, k | m in microserviceList && k in microserviceList && m != k :: microserviceList[m] != microserviceList[k])
    }

    ghost function Services(): (r: map<string, Scale>)
      requires Valid()
      reads `microserviceList, `containers, containers
      ensures r.Keys == microserviceList.Keys
    {
      map name | name in microserviceList :: microserviceList[name].Value()
    }

    ghost function Value(): State
      requires Valid()
      reads this, containers
    {
      State(Services(), aionSetting, cancel, childCtx, contexts, cancelled, log, running)
    }

    constructor ()
      ensures Valid() && Value() == INIT && containers == {}
    {
      microserviceList, containers := map[], {};
      aionSetting, cancel, childCtx := None, None, None;
      contexts, cancelled, log := 0, {}, [];
      running := true;
    }

    method StartInstance(name: string, num: int, ok: bool) returns (r: Outcome)
      requires Valid() && name in microserviceList
      modifies containers
      ensures r == StartOutcome(old(Services())[name], num, ok)
      ensures Services() == old(Services())[name := Started(old(Services())[name], num, ok)]
    {
      ghost var was := Services();
      var sc := microserviceList[name];
      r := sc.StartMicroservice(num, ok);
      ghost var now := was[name := Started(was[name], num, ok)];
      forall m | m in microserviceList
        ensures microserviceList[m].Value() == now[m]
      {
        assert m != name ==> microserviceList[m] != sc;
      }
      assert Services() == now;
    }

    method StopInstance(name: string, num: int, ok: bool) returns (r: Outcome)
      requires Valid() && name in microserviceList
      modifies containers
      ensures r == StopOutcome(old(Services())[name], num, ok)
      ensures Services() == old(Services())[name := Stopped(old(Services())[name], num, ok)]
    {
      ghost var was := Services();
      var sc := microserviceList[name];
      r := sc.StopMicroservice(num, ok);
      ghost var now := was[name := Stopped(was[name], num, ok)];
      forall m | m in microserviceList
        ensures microserviceList[m].Value() == now[m]
      {
        assert m != name ==> microserviceList[m] != sc;
      }
      assert Services() == now;
    }

    method StartMicroserviceByNum(name: string, num: int, ok: bool) returns (found: bool, r: Outcome)
      requires Valid()
      modifies `log, containers
      ensures Value() == StartNumber(old(Value()), name, num, ok)
      ensures found == (name in microserviceList)
      ensures found ==> r == StartOutcome(old(Services())[name], num, ok)
    {
      if name !in microserviceList {
        return false, Missing;
      }
      found := true;
      ghost var was := Services();
      r := StartInstance(name, num, ok);
      ghost var now := Services();
      if r.Done? {
        log := log + [Start(name, num), Spawn(name, num, childCtx)];
        assert Services() == now;
      } else {
        assert was[name := was[name]] == was;
      }
    }

    method StartMicroservice(name: string, fails: Failures) returns (found: bool)
      requires Valid()
      modifies `log, containers
      ensures Value() == StartService(old(Value()), name, fails)
      ensures found == (name in microserviceList)
    {
      if name !in microserviceList {
        return false;
      }
      var scale := |microserviceList[name].containerList|;
      assert scale == GetScale(Services()[name]);
      for i := 1 to scale + 1
        invariant Value() == StartUpTo(old(Value()), name, i - 1, fails)
      {
        var _, _ := StartMicroserviceByNum(name, i, (name, i) !in fails);
      }
      return true;
    }

    method StopNumbered(name: string, num: int, ok: bool)
      requires Valid() && name in microserviceList
      modifies `log, containers
      ensures Value() == StopNumber(old(Value()), name, num, ok)
    {
      ghost var was := Services();
      var r := StopInstance(name, num, ok);
      ghost var now := Services();
      if r.Done? {
        log := log + [Stop(name, num)];
        assert Services() == now;
      } else {
        assert was[name := was[name]] == was;
      }
    }

    method StopMicroservice(name: string, fails: Failures) returns (found: bool)
      requires Valid()
      modifies `log, containers
      ensures Value() == StopService(old(Value()), name, fails)
      ensures found == (name in microserviceList)
    {
      if name !in microserviceList {
        return false;
      }
      var scale := |microserviceList[name].containerList|;
      assert scale == GetScale(Services()[name]);
      for i := 1 to scale + 1
        invariant Value() == StopUpTo(old(Value()), name, i - 1, fails)
      {
        StopNumbered(name, i, (name, i) !in fails);
      }
      return true;
    }

    method StopAllMicroservice(fails: Failures) returns (ghost order: seq<string>)
      requires Valid()
      modifies `log, containers
      ensures Enumerates(order, microserviceList.Keys) && Value() == StopAll(old(Value()), order, fails)
    {
      order := [];
      var left := microserviceList.Keys;
      ghost var start := Value();
      while left != {}
        invariant left <= microserviceList.Keys && Enumerates(order, microserviceList.Keys - left)
        invariant Value() == StopAll(start, order, fails)
        decreases left
      {
        var name :| name in left;
        var _ := StopMicroservice(name, fails);
        StopAllSnoc(start, order, name, fails);
        EnumeratesMore(order, microserviceList.Keys, left, name);
        order := order + [name];
        left := left - {name};
      }
    }

    /** A container object of its own for every service of the setting, replacing any older one. */
    method SetMicroserviceList(services: map<string, Microservice>) returns (ghost order: seq<string>)
      requires Valid()
      modifies `microserviceList, `containers, `log
      ensures Valid() && fresh(containers - old(containers))
      ensures Enumerates(order, services.Keys) && Value() == CreateAll(old(Value()), order, services)
    {
      order := [];
      var left := services.Keys;
      ghost var start := Value();
      while left != {}
        invariant left <= services.Keys && Enumerates(order, services.Keys - left)
        invariant Valid() && fresh(containers - old(containers))
        invariant Value() == CreateAll(start, order, services)
        decreases left
      {
        var name :| name in left;
        SetMicroservice(name, services[name]);
        CreatesMore(start, order, left, name, services);
        order := order + [name];
        left := left - {name};
      }
    }

    method SetMicroservice(name: string, ms: Microservice)
      requires Valid()
      modifies `microserviceList, `containers, `log
      ensures Valid() && fresh(containers - old(containers))
      ensures Value() == CreateService(old(Value()), name, ms)
    {
      AddContainer(name, ms);
      ghost var now := Services();
      log := log + [Create(name, ScaleOf(ms))];
      assert Services() == now;
    }

    method AddContainer(name: string, ms: Microservice)
      requires Valid()
      modifies `microserviceList, `containers
      ensures Valid() && fresh(containers - old(containers))
      ensures Services() == old(Services())[name := NewScale(ms)]
    {
      ghost var now := Services()[name := NewScale(ms)];
      var sc := new ScaleContainer(ms);
      microserviceList := microserviceList[name := sc];
      containers := containers + {sc};
      forall m | m in microserviceList
        ensures microserviceList[m].Value() == now[m]
      {
      }
      assert Services() == now;
    }

    method StartStartupMicroservice(services: map<string, Microservice>, fails: Failures) returns (ghost order: seq<string>)
      requires Valid()
      modifies `log, containers
      ensures Enumerates(order, services.Keys) && Value() == StartStartups(old(Value()), order, services, fails)
    {
      order := [];
      var left := services.Keys;
      ghost var start := Value();
      while left != {}
        invariant left <= services.Keys && Enumerates(order, services.Keys - left)
        invariant Value() == StartStartups(start, order, services, fails)
        decreases left
      {
        var name :| name in left;
        if services[name].startup {
          var _ := StartMicroservice(name, fails);
        }
        StartStartupsSnoc(start, order, name, services, fails);
        EnumeratesMore(order, services.Keys, left, name);
        order := order + [name];
        left := left - {name};
      }
    }

    method CancelPrevious()
      modifies `cancelled
      ensures cancelled == if cancel.Some? then old(cancelled) + {cancel.value} else old(cancelled)
    {
      if cancel.Some? {
        cancelled := cancelled + {cancel.value};
      }
    }

    method RenewContext()
      requires Valid()
      modifies `cancelled, `cancel, `childCtx, `contexts
      ensures Value() == NewContext(old(Value()))
    {
      CancelPrevious();
      cancel, childCtx, contexts := Some(contexts), Some(contexts), contexts + 1;
      assert Services() == old(Services());
    }

    /** The setting is kept, then sent to the receive loop; the loop waits until it has been taken. */
    method TakeOverSetting(setting: AionSetting)
      requires Valid()
      modifies `aionSetting, `log
      ensures Value() == TakeOver(old(Value()), setting)
    {
      aionSetting := Some(setting);
      log := log + [HandOver(setting)];
    }

    method StopPrevious(setting: AionSetting, fails: Failures) returns (ghost order: seq<string>)
      requires Valid()
      modifies `cancelled, `cancel, `childCtx, `contexts, `log, `aionSetting, containers
      ensures Enumerates(order, old(Value()).list.Keys)
      ensures Value() == TakeOver(StopAll(NewContext(old(Value())), order, fails), setting)
    {
      RenewContext();
      order := StopAllMicroservice(fails);
      TakeOverSetting(setting);
    }

    method StartCurrent(services: map<string, Microservice>, fails: Failures)
      returns (ghost create: seq<string>, ghost start: seq<string>)
      requires Valid()
      modifies `microserviceList, `containers, `log, containers
      ensures Valid() && fresh(containers - old(containers))
      ensures Enumerates(create, services.Keys) && Enumerates(start, services.Keys)
      ensures Value() == StartStartups(CreateAll(old(Value()), create, services), start, services, fails)
    {
      create := SetMicroserviceList(services);
      start := StartStartupMicroservice(services, fails);
    }

    method ApplySetting(setting: AionSetting, stopFails: Failures, startFails: Failures) returns (ghost orders: Orders)
      requires Valid()
      modifies this, containers
      ensures Valid() && fresh(containers - old(containers))
      ensures OrdersFor(old(Value()), setting, orders)
      ensures Value() == Applied(old(Value()), setting, stopFails, startFails, orders)
    {
      ghost var stop := StopPrevious(setting, stopFails);
      ghost var create, start := StartCurrent(setting.microservices, startFails);
      orders := Orders(stop, create, start);
    }

    /** One round of the loop. */
    method Handle(arrival: Arrival) returns (ghost ev: Event)
      requires Valid() && running
      modifies this, containers
      ensures Valid() && fresh(containers - old(containers))
      ensures Handles(ev, arrival) && Value() == Step(old(Value()), ev)
      ensures ev.Apply? ==> OrdersFor(old(Value()), ev.setting, ev.orders)
    {
      match arrival {
        case Ended =>
          CancelPrevious();
          running := false;
          ev := ContextDone;
        case SettingArrived(setting, stopFails, startFails) =>
          ghost var orders := ApplySetting(setting, stopFails, startFails);
          ev := Apply(setting, stopFails, startFails, orders);
        case StartRequested(name, num, ok) =>
          var _, _ := StartMicroserviceByNum(name, num, ok);
          ev := Request(name, num, ok);
      }
    }

    /**
     The loop, from its start: it answers each arrival with a step of the machine until its context ends. That handing
     a setting over may block is the subject of module `Handoff`.
     */
    method WatchKanbanForMicroservice(arrivals: seq<Arrival>) returns (ghost evs: seq<Event>)
      requires Valid() && Value() == INIT
      modifies this, containers
      ensures Valid() && Value() == Run(INIT, evs)
      ensures HandlesFirst(evs, arrivals) && InOrders(evs)
      ensures |evs| < |arrivals| ==> evs != [] && evs[|evs| - 1] == ContextDone
    {
      evs := [];
      for n := 0 to |arrivals|
        invariant Valid() && Value() == Run(INIT, evs) && running && |evs| == n
        invariant fresh(containers - old(containers))
        invariant HandlesFirst(evs, arrivals) && InOrders(evs)
      {
        ghost var ev := Handle(arrivals[n]);
        HandlesMore(evs, ev, arrivals);
        evs := evs + [ev];
        if arrivals[n].Ended? {
          return;
        }
      }
    }
  }

  lemma EnumeratesMore(order: seq<string>, names: set<string>, left: set<string>, name: string)
    requires left <= names && Enumerates(order, names - left) && name in left
    ensures Enumerates(order + [name], names - (left - {name}))
  {
    forall i, j | 0 <= i < j < |order + [name]|
      ensures (order + [name])[i] != (order + [name])[j]
    {
      assert (order + [name])[i] in order;
    }
  }

  lemma StopAllSnoc(b: State, order: seq<string>, name: string, fails: Failures)
    ensures StopAll(b, order + [name], fails) == StopService(StopAll(b, order, fails), name, fails)
  {
    assert (order + [name])[..|order|] == order;
  }

  lemma CreateAllSnoc(b: State, order: seq<string>, name: string, services: map<string, Microservice>)
    requires name in services
    ensures CreateAll(b, order + [name], services) == CreateService(CreateAll(b, order, services), name, services[name])
  {
    assert (order + [name])[..|order|] == order;
  }

  lemma CreatesMore(b: State, order: seq<string>, left: set<string>, name: string, services: map<string, Microservice>)
    requires left <= services.Keys && Enumerates(order, services.Keys - left) && name in left
    ensures CreateAll(b, order + [name], services) == CreateService(CreateAll(b, order, services), name, services[name])
    ensures Enumerates(order + [name], services.Keys - (left - {name}))
  {
    CreateAllSnoc(b, order, name, services);
    EnumeratesMore(order, services.Keys, left, name);
  }

  lemma StartStartupsSnoc(b: State, order: seq<string>, name: string, services: map<string, Microservice>, fails: Failures)
    requires name in services
    ensures StartStartups(b, order + [name], services, fails)
         == var before := StartStartups(b, order, services, fails);
            if services[name].startup then StartService(before, name, fails) else before
  {
    assert (order + [name])[..|order|] == order;
  }

  lemma RunSnoc(evs: seq<Event>, ev: Event)
    ensures Run(INIT, evs + [ev]) == Step(Run(INIT, evs), ev)
    ensures Run(INIT, evs).running ==> (Run(INIT, evs + [ev]).running <==> !ev.ContextDone?)
  {
    assert (evs + [ev])[..|evs|] == evs;
    RunGood(evs);
    StepGood(Run(INIT, evs), ev);
  }
}
