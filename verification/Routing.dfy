/**
 The broker's watcher of one service instance (cmd/service-broker/app/watcher.go): every kanban the instance finishes is
 routed to the next services, on this device or on another. Main results: `RoutedByKey`,
 `RunConserves`, `OneDeliveryEach`, `RoutedAsConfigured` and `StopsExactlyAt`.
 */
module Routing {
  import opened Basics
  import opened Kanbans
  import opened Keys
  import Metadata
  import opened Settings

  /** What a watcher does to the outside world. */
  datatype Act =
    | ToDevice(device: string, addr: string, service: string, number: int, kanban: StatusKanban)
    | Write(key: string, kanban: StatusKanban)
    | StartRequest(service: string, number: int)

  const SERVICE_BROKER := "service-broker"

  function GetNextNumber(processNumber: int, pattern: string): int {
    if pattern == DEFAULT_NUMBER then 1
    else if pattern == SPREAD then processNumber
    else 1
  }

  /** The settings for the connection key, else those for "default", else an error. */
  function GetNextServiceList(setting: AionSetting, name: string, key: string): Option<seq<NextServiceSetting>> {
    if name !in setting.microservices then None
    else
      var next := setting.microservices[name].nextService;
      if key in next then Some(next[key])
      else if DEFAULT_CONNECTION_KEY in next then Some(next[DEFAULT_CONNECTION_KEY])
      else None
  }

  // ---- Where a kanban goes: the closed form

  /** Before anything was delivered locally: the kanban's own device name, else the setting's. */
  function FirstChoice(k: StatusKanban, next: NextServiceSetting): string {
    if k.nextDeviceName != "" then k.nextDeviceName else next.nextDevice
  }

  /** The position of the first local delivery. */
  function FirstLocal(setting: AionSetting, k: StatusKanban, list: seq<NextServiceSetting>): (n: nat)
    ensures n <= |list|
  {
    if list == [] then 0
    else if FirstChoice(k, list[0]) !in setting.devices then 0
    else 1 + FirstLocal(setting, k, list[1..])
  }

  lemma {:induction false} FirstLocalIs(setting: AionSetting, k: StatusKanban, list: seq<NextServiceSetting>)
    ensures var n := FirstLocal(setting, k, list);
            && (forall i | 0 <= i < n :: FirstChoice(k, list[i]) in setting.devices)
            && (n < |list| ==> FirstChoice(k, list[n]) !in setting.devices)
    decreases |list|
  {
    if list != [] && FirstChoice(k, list[0]) in setting.devices {
      FirstLocalIs(setting, k, list[1..]);
      assert forall i | 0 < i < |list| :: list[i] == list[1..][i - 1];
    }
  }

  /** From the first local delivery on the kanban carries this device's own name. */
  function CarriedName(setting: AionSetting, k: StatusKanban, list: seq<NextServiceSetting>, i: nat): string {
    if i <= FirstLocal(setting, k, list) then k.nextDeviceName else setting.deviceName
  }

  function Target(setting: AionSetting, k: StatusKanban, list: seq<NextServiceSetting>, i: nat): string
    requires i < |list|
  {
    FirstChoice(k.(nextDeviceName := CarriedName(setting, k, list, i)), list[i])
  }

  function ActsAt(setting: AionSetting, k: StatusKanban, list: seq<NextServiceSetting>, i: nat): seq<Act>
    requires i < |list|
  {
    var number := GetNextNumber(k.processNumber, list[i].numberPattern);
    var service, device := list[i].nextServiceName, Target(setting, k, list, i);
    if device in setting.devices then
      [ToDevice(device, setting.devices[device].addr, service, Int32(number),
                k.(nextDeviceName := CarriedName(setting, k, list, i)))]
    else
      [Write(BeforeKey(service, number), k.(nextDeviceName := setting.deviceName)), StartRequest(service, number)]
  }

  /** The acts for each of the first `n` settings. */
  function Parts(setting: AionSetting, k: StatusKanban, list: seq<NextServiceSetting>, n: nat): seq<seq<Act>>
    requires n <= |list|
  {
    seq(n, i requires 0 <= i < n => ActsAt(setting, k, list, i))
  }

  /** The acts for the first `n` settings, one after the other. */
  function Dispatched(setting: AionSetting, k: StatusKanban, list: seq<NextServiceSetting>, n: nat): seq<Act>
    requires n <= |list|
  {
    Concat(Parts(setting, k, list, n))
  }

  lemma DispatchedMore(setting: AionSetting, k: StatusKanban, list: seq<NextServiceSetting>, n: nat)
    requires n < |list|
    ensures Dispatched(setting, k, list, n + 1) == Dispatched(setting, k, list, n) + ActsAt(setting, k, list, n)
  {
    assert Parts(setting, k, list, n + 1) == Parts(setting, k, list, n) + [ActsAt(setting, k, list, n)];
    ConcatSnoc(Parts(setting, k, list, n), ActsAt(setting, k, list, n));
  }

  // ---- Round by round

  function RoundActs(setting: AionSetting, k: StatusKanban, next: NextServiceSetting): seq<Act> {
    var number := GetNextNumber(k.processNumber, next.numberPattern);
    var device := FirstChoice(k, next);
    if device in setting.devices then
      [ToDevice(device, setting.devices[device].addr, next.nextServiceName, Int32(number), k)]
    else
      [Write(BeforeKey(next.nextServiceName, number), k.(nextDeviceName := setting.deviceName)),
       StartRequest(next.nextServiceName, number)]
  }

  function AfterRound(setting: AionSetting, k: StatusKanban, next: NextServiceSetting): StatusKanban {
    if FirstChoice(k, next) in setting.devices then k else k.(nextDeviceName := setting.deviceName)
  }

  lemma RoundFollows(setting: AionSetting, k: StatusKanban, list: seq<NextServiceSetting>, i: nat)
    requires i < |list|
    ensures var carried := k.(nextDeviceName := CarriedName(setting, k, list, i));
            && RoundActs(setting, carried, list[i]) == ActsAt(setting, k, list, i)
            && AfterRound(setting, carried, list[i]) == k.(nextDeviceName := CarriedName(setting, k, list, i + 1))
  {
    FirstLocalIs(setting, k, list);
    assert k.(nextDeviceName := k.nextDeviceName) == k;
  }

  // ---- What is delivered

  /** A device and its address, or here. */
  datatype Place = Remote(device: string, addr: string) | Here

  datatype Delivery = Delivery(place: Place, service: string, number: int, kanban: StatusKanban)

  /** A delivery on this device: the kanban is in the instance's queue when the start of that instance is requested. */
  predicate IsLocal(acts: seq<Act>) {
    && |acts| >= 2 && acts[0].Write? && acts[1].StartRequest?
    && acts[0].key == BeforeKey(acts[1].service, acts[1].number)
  }

  /** The deliveries that the acts amount to, in order. */
  function Deliveries(acts: seq<Act>): seq<Delivery>
    decreases |acts|
  {
    if acts == [] then []
    else if IsLocal(acts) then
      [Delivery(Here, acts[1].service, acts[1].number, acts[0].kanban)] + Deliveries(acts[2..])
    else
      match acts[0]
      case ToDevice(device, addr, service, number, k) =>
        [Delivery(Remote(device, addr), service, number, k)] + Deliveries(acts[1..])
      case _ => Deliveries(acts[1..])
  }

  /** The acts are nothing but deliveries: no write and no start request stands alone. */
  predicate AllDelivered(acts: seq<Act>)
    decreases |acts|
  {
    || acts == []
    || (acts[0].ToDevice? && AllDelivered(acts[1..]))
    || (IsLocal(acts) && AllDelivered(acts[2..]))
  }

  /** One delivery and nothing else. */
  predicate Delivers(acts: seq<Act>, d: Delivery) {
    || (|acts| == 1 && acts[0].ToDevice?
        && d == Delivery(Remote(acts[0].device, acts[0].addr), acts[0].service, acts[0].number, acts[0].kanban))
    || (|acts| == 2 && IsLocal(acts) && d == Delivery(Here, acts[1].service, acts[1].number, acts[0].kanban))
  }

  lemma DeliveredFirst(acts: seq<Act>, d: Delivery, rest: seq<Act>)
    requires Delivers(acts, d) && AllDelivered(rest)
    ensures Deliveries(acts + rest) == [d] + Deliveries(rest) && AllDelivered(acts + rest)
  {
    assert (acts + rest)[|acts|..] == rest;
  }

  lemma {:induction false} PartsDeliver(parts: seq<seq<Act>>, ds: seq<Delivery>)
    requires |parts| == |ds| && forall i | 0 <= i < |parts| :: Delivers(parts[i], ds[i])
    ensures Deliveries(Concat(parts)) == ds && AllDelivered(Concat(parts))
    decreases |parts|
  {
    if parts != [] {
      PartsDeliver(parts[1..], ds[1..]);
      DeliveredFirst(parts[0], ds[0], Concat(parts[1..]));
    }
  }

  lemma {:induction false} DeliveriesAppend(a: seq<Act>, b: seq<Act>)
    requires AllDelivered(a) && AllDelivered(b)
    ensures Deliveries(a + b) == Deliveries(a) + Deliveries(b) && AllDelivered(a + b)
    decreases |a|
  {
    if a == [] {
      assert a + b == b;
    } else {
      var n, d := FirstDelivery(a);
      DeliveriesAppend(a[n..], b);
      OneMoreBefore(a[..n], d, a[n..], b);
      assert a == a[..n] + a[n..];
    }
  }

  lemma OneMoreBefore(head: seq<Act>, d: Delivery, a: seq<Act>, b: seq<Act>)
    requires Delivers(head, d) && AllDelivered(a)
    requires Deliveries(a + b) == Deliveries(a) + Deliveries(b) && AllDelivered(a + b)
    ensures Deliveries(head + a + b) == Deliveries(head + a) + Deliveries(b) && AllDelivered(head + a + b)
  {
    DeliveredFirst(head, d, a);
    DeliveredFirst(head, d, a + b);
    Reassociate(head, a, b);
    Reassociate([d], Deliveries(a), Deliveries(b));
  }

  lemma FirstDelivery(acts: seq<Act>) returns (n: nat, d: Delivery)
    requires acts != [] && AllDelivered(acts)
    ensures 0 < n <= |acts| && Delivers(acts[..n], d) && AllDelivered(acts[n..])
  {
    if acts[0].ToDevice? {
      n, d := 1, Delivery(Remote(acts[0].device, acts[0].addr), acts[0].service, acts[0].number, acts[0].kanban);
    } else {
      n, d := 2, Delivery(Here, acts[1].service, acts[1].number, acts[0].kanban);
    }
  }

  lemma {:induction false} DeliveriesConcat(parts: seq<seq<Act>>, per: seq<seq<Delivery>>)
    requires |parts| == |per| && forall i | 0 <= i < |parts| :: AllDelivered(parts[i]) && Deliveries(parts[i]) == per[i]
    ensures Deliveries(Concat(parts)) == Concat(per) && AllDelivered(Concat(parts))
    decreases |parts|
  {
    if parts != [] {
      DeliveriesConcat(parts[1..], per[1..]);
      DeliveriesAppend(parts[0], Concat(parts[1..]));
    }
  }

  /** Some delivery before the i-th is local, going by the kanban's device name or else by the settings'. */
  predicate LocalBefore(setting: AionSetting, k: StatusKanban, list: seq<NextServiceSetting>, i: nat)
    requires i <= |list|
  {
    exists j | 0 <= j < i :: (if k.nextDeviceName != "" then k.nextDeviceName else list[j].nextDevice) !in setting.devices
  }

  /**
   What the settings ask for at position `i`: the service, and the kanban's own number for the pattern "n" and 1 for any
   other, on the device that the kanban's device name says, or else the setting's -- except that after a local delivery the
   kanban's device name is this device's own. A name that is not in the device map means here.
   */
  function Asked(setting: AionSetting, k: StatusKanban, list: seq<NextServiceSetting>, i: nat): Delivery
    requires i < |list|
  {
    var own := if LocalBefore(setting, k, list, i) then setting.deviceName else k.nextDeviceName;
    var name := if own != "" then own else list[i].nextDevice;
    var number := if list[i].numberPattern == "n" then k.processNumber else 1;
    if name in setting.devices then
      Delivery(Remote(name, setting.devices[name].addr), list[i].nextServiceName, number, k.(nextDeviceName := own))
    else
      Delivery(Here, list[i].nextServiceName, number, k.(nextDeviceName := setting.deviceName))
  }

  function AllAsked(setting: AionSetting, k: StatusKanban, list: seq<NextServiceSetting>): seq<Delivery> {
    seq(|list|, i requires 0 <= i < |list| => Asked(setting, k, list, i))
  }

  lemma LocalBeforeIs(setting: AionSetting, k: StatusKanban, list: seq<NextServiceSetting>, i: nat)
    requires i <= |list|
    ensures LocalBefore(setting, k, list, i) <==> i > FirstLocal(setting, k, list)
  {
    FirstLocalIs(setting, k, list);
    var n := FirstLocal(setting, k, list);
    if n < i {
      assert FirstChoice(k, list[n]) !in setting.devices;
    }
    forall j | 0 <= j < i && j < n
      ensures FirstChoice(k, list[j]) in setting.devices
    {
    }
  }

  lemma DeliversAsked(setting: AionSetting, k: StatusKanban, list: seq<NextServiceSetting>, i: nat)
    requires i < |list| && -0x8000_0000 <= k.processNumber < 0x8000_0000
    ensures Delivers(ActsAt(setting, k, list, i), Asked(setting, k, list, i))
  {
    LocalBeforeIs(setting, k, list, i);
  }

  /**
   Nothing is lost, duplicated or sent elsewhere: the loop's acts are exactly one delivery per setting, in the order of the
   settings, each as asked; and on this device the kanban is written to the queue before the start is requested.
   */
  lemma OneDeliveryEach(setting: AionSetting, k: StatusKanban, list: seq<NextServiceSetting>)
    requires -0x8000_0000 <= k.processNumber < 0x8000_0000
    ensures Deliveries(Dispatched(setting, k, list, |list|)) == AllAsked(setting, k, list)
    ensures AllDelivered(Dispatched(setting, k, list, |list|))
  {
    var parts := Parts(setting, k, list, |list|);
    forall i | 0 <= i < |list|
      ensures Delivers(parts[i], AllAsked(setting, k, list)[i])
    {
      DeliversAsked(setting, k, list, i);
    }
    PartsDeliver(parts, AllAsked(setting, k, list));
  }

  // ---- Where the deliveries go

  function PlaceOf(setting: AionSetting, name: string): Place {
    if name in setting.devices then Remote(name, setting.devices[name].addr) else Here
  }

  /** Once something was delivered here: the device's own name, or the setting's when it has none. */
  function LaterChoice(setting: AionSetting, next: NextServiceSetting): string {
    if setting.deviceName != "" then setting.deviceName else next.nextDevice
  }

  function PlaceAt(setting: AionSetting, k: StatusKanban, list: seq<NextServiceSetting>, i: nat): Place
    requires i < |list|
  {
    PlaceOf(setting, if i <= FirstLocal(setting, k, list) then FirstChoice(k, list[i]) else LaterChoice(setting, list[i]))
  }

  lemma AskedPlace(setting: AionSetting, k: StatusKanban, list: seq<NextServiceSetting>, i: nat)
    requires i < |list|
    ensures Asked(setting, k, list, i).place == PlaceAt(setting, k, list, i)
  {
    LocalBeforeIs(setting, k, list, i);
  }

  /**
   Where the loop delivers: the i-th delivery goes where the kanban, or else the i-th setting, says, up to and including
   the first one that is local. From then on it goes to the device of this device's own name, or here if the device
   map does not have that name; without an own name, where the i-th setting says.
   */
  lemma AfterFirstLocal(setting: AionSetting, k: StatusKanban, list: seq<NextServiceSetting>)
    requires -0x8000_0000 <= k.processNumber < 0x8000_0000
    ensures var to := Deliveries(Dispatched(setting, k, list, |list|));
            var first := FirstLocal(setting, k, list);
            && |to| == |list|
            && (forall i | 0 <= i < first :: to[i].place == PlaceOf(setting, FirstChoice(k, list[i])) != Here)
            && (first < |list| ==> to[first].place == PlaceOf(setting, FirstChoice(k, list[first])) == Here)
            && (forall i | first < i < |list| :: to[i].place == PlaceOf(setting, LaterChoice(setting, list[i])))
  {
    OneDeliveryEach(setting, k, list);
    forall i | 0 <= i < |list|
      ensures AllAsked(setting, k, list)[i].place == PlaceAt(setting, k, list, i)
    {
      AskedPlace(setting, k, list, i);
    }
    FirstLocalIs(setting, k, list);
  }

  /** Every delivery goes where the kanban or its own setting says. */
  ghost predicate FollowsConfiguration(setting: AionSetting, k: StatusKanban, list: seq<NextServiceSetting>) {
    var to := Deliveries(Dispatched(setting, k, list, |list|));
    |to| == |list| && forall i | 0 <= i < |list| :: to[i].place == PlaceOf(setting, FirstChoice(k, list[i]))
  }

  /**
   Routing follows the configuration exactly when, after the first setting whose choice is local, every choice leads to
   the same place as the device's own name -- or, without an own name, as the setting's device.
   */
  lemma RoutedAsConfigured(setting: AionSetting, k: StatusKanban, list: seq<NextServiceSetting>)
    requires -0x8000_0000 <= k.processNumber < 0x8000_0000
    ensures FollowsConfiguration(setting, k, list)
       <==> forall i | FirstLocal(setting, k, list) < i < |list| ::
              PlaceOf(setting, FirstChoice(k, list[i])) == PlaceOf(setting, LaterChoice(setting, list[i]))
  {
    AfterFirstLocal(setting, k, list);
  }

  /** It need not: a device the setting lists gets nothing when a local service comes before it. */
  lemma RemoteGetsNothing(k: StatusKanban) returns (setting: AionSetting, list: seq<NextServiceSetting>)
    requires k.nextDeviceName == "" && -0x8000_0000 <= k.processNumber < 0x8000_0000
    ensures exists i | 0 <= i < |list| :: list[i].nextDevice in setting.devices
    ensures forall d | d in Deliveries(Dispatched(setting, k, list, |list|)) :: d.place == Here
    ensures !FollowsConfiguration(setting, k, list)
  {
    setting := AionSetting("edge", map[], map["cloud" := Device("10.0.0.1", "", "", "", 0)]);
    list := [NextServiceSetting("store", "0", ""), NextServiceSetting("upload", "0", "cloud")];
    AfterFirstLocal(setting, k, list);
    assert FirstLocal(setting, k, list) == 0;
    assert list[1].nextDevice in setting.devices;
    assert FirstChoice(k, list[1]) == "cloud";
  }

  // ---- The kanban queued for a device is a pointer

  /** How many kanbans the acts queue for devices. */
  function QueuedBy(acts: seq<Act>): nat {
    if acts == [] then 0 else QueuedBy(acts[..|acts| - 1]) + if acts[|acts| - 1].ToDevice? then 1 else 0
  }

  lemma {:induction false} QueuedByAppend(a: seq<Act>, b: seq<Act>)
    ensures QueuedBy(a + b) == QueuedBy(a) + QueuedBy(b)
    decreases |b|
  {
    if b == [] {
      assert a + b == a;
    } else {
      assert (a + b)[..|a + b| - 1] == a + b[..|b| - 1];
      QueuedByAppend(a, b[..|b| - 1]);
    }
  }

  lemma QueuedByRound(setting: AionSetting, k: StatusKanban, next: NextServiceSetting)
    ensures QueuedBy(RoundActs(setting, k, next)) == if FirstChoice(k, next) in setting.devices then 1 else 0
  {
    var acts := RoundActs(setting, k, next);
    assert acts[..0] == [];
    if |acts| == 2 {
      assert acts[..1] == [acts[0]] && [acts[0]][..0] == [];
      assert QueuedBy([acts[0]]) == 0;
    }
  }

  function Copies<T>(x: T, n: nat): seq<T> {
    seq(n, _ => x)
  }

  lemma CopiesAppend<T>(x: T, m: nat, n: nat)
    ensures Copies(x, m) + Copies(x, n) == Copies(x, m + n)
  {
  }

  /** One more round, on the log and on the records queued. */
  lemma RoundAppends<T>(setting: AionSetting, k: StatusKanban, list: seq<NextServiceSetting>, i: nat,
                        log: seq<Act>, queued: seq<T>, x: T)
    requires i < |list|
    ensures var carried := k.(nextDeviceName := CarriedName(setting, k, list, i));
            var before, now := Dispatched(setting, k, list, i), RoundActs(setting, carried, list[i]);
            && AfterRound(setting, carried, list[i]) == k.(nextDeviceName := CarriedName(setting, k, list, i + 1))
            && log + before + now == log + Dispatched(setting, k, list, i + 1)
            && queued + Copies(x, QueuedBy(before)) + Copies(x, QueuedBy(now))
            == queued + Copies(x, QueuedBy(Dispatched(setting, k, list, i + 1)))
  {
    var before, now := Dispatched(setting, k, list, i), ActsAt(setting, k, list, i);
    RoundFollows(setting, k, list, i);
    DispatchedMore(setting, k, list, i);
    QueuedByAppend(before, now);
    Reassociate(log, before, now);
    CopiesAppend(x, QueuedBy(before), QueuedBy(now));
    Reassociate(queued, Copies(x, QueuedBy(before)), Copies(x, QueuedBy(now)));
  }

  /** What the record holds once the loop is done. */
  function AfterDispatch(setting: AionSetting, k: StatusKanban, list: seq<NextServiceSetting>): StatusKanban {
    k.(nextDeviceName := CarriedName(setting, k, list, |list|))
  }

  /**
   A device that is sent the record only after the loop gets the kanban as it was when it was queued, unless a local
   delivery after it has overwritten the device name with a different one.
   */
  lemma OverwrittenExactly(setting: AionSetting, k: StatusKanban, list: seq<NextServiceSetting>, i: nat)
    requires i < |list| && ActsAt(setting, k, list, i)[0].ToDevice?
    ensures ActsAt(setting, k, list, i)[0].kanban == AfterDispatch(setting, k, list)
       <==> !(i < FirstLocal(setting, k, list) < |list|) || setting.deviceName == k.nextDeviceName
  {
    var now, later := CarriedName(setting, k, list, i), CarriedName(setting, k, list, |list|);
    assert ActsAt(setting, k, list, i)[0].kanban == k.(nextDeviceName := now);
    NamesDiffer(k, now, later);
    TargetOfFirst(setting, k, list, i);
  }

  /** The first local choice is not a device's. */
  lemma TargetOfFirst(setting: AionSetting, k: StatusKanban, list: seq<NextServiceSetting>, i: nat)
    requires i < |list|
    ensures i == FirstLocal(setting, k, list) ==> Target(setting, k, list, i) !in setting.devices
  {
    FirstLocalIs(setting, k, list);
    assert k.(nextDeviceName := k.nextDeviceName) == k;
  }

  lemma NamesDiffer(k: StatusKanban, a: string, b: string)
    ensures k.(nextDeviceName := a) == k.(nextDeviceName := b) <==> a == b
  {
  }

  /** In a loaded setting a missing pattern spreads like "n": the kanban's own number; every other pattern means 1. */
  lemma NumberAfterLoading(processNumber: int, list: seq<NextServiceSetting>, i: nat)
    requires i < |list|
    ensures |FillPatterns(list)| == |list|
    ensures GetNextNumber(processNumber, FillPatterns(list)[i].numberPattern)
         == if list[i].numberPattern == "" || list[i].numberPattern == "n" then processNumber else 1
  {
    PatternsFilled(list);
  }

  // ---- Requests to terminate

  /** JSON, as far as it matters here. */
  datatype Json =
    | JsonObject(members: map<string, Json>)
    | JsonArray(elements: seq<Json>)
    | JsonString(text: string)
    | JsonNumber(number: real)
    | JsonBool(flag: bool)
    | JsonNull

  /** `protojson.Marshal`: a value without a kind, however deep, is an error. */
  function ToJson(v: Value): Option<Json>
    decreases v
  {
    match v
    case StructValue(fields) =>
      if exists key | key in fields :: ToJson(fields[key]).None? then None
      else Some(JsonObject(map key | key in fields :: ToJson(fields[key]).value))
    case ListValue(values) =>
      if exists i | 0 <= i < |values| :: ToJson(values[i]).None? then None
      else Some(JsonArray(seq(|values|, i requires 0 <= i < |values| => ToJson(values[i]).value)))
    case StringValue(text) => Some(JsonString(text))
    case NumberValue(number) => Some(JsonNumber(number))
    case BoolValue(flag) => Some(JsonBool(flag))
    case NullValue => Some(JsonNull)
    case Unset => None
  }

  /** `terminateServiceParser`, from the JSON of the metadata: the service named; `None` stands for its errors. */
  function TerminatedService(k: StatusKanban): Option<string> {
    match ToJson(StructValue(k.metadata))
    case Some(JsonObject(ret)) =>
      if "type" !in ret || !ret["type"].JsonString? || ret["type"].text != "terminate" then None
      else if "name" !in ret || !ret["name"].JsonString? then None
      else Some(ret["name"].text)
    case _ => None
  }

  /** Nothing in the value, however deep, lacks a kind. */
  ghost predicate AllSet(v: Value) {
    forall path :: Metadata.ValueAt(v, path) != Some(Unset)
  }

  lemma {:induction false} MarshalsWhenSet(v: Value)
    ensures ToJson(v).Some? <==> AllSet(v)
    decreases v
  {
    match v {
      case StructValue(fields) =>
        forall key | key in fields
          ensures ToJson(fields[key]).Some? <==> AllSet(fields[key])
        {
          MarshalsWhenSet(fields[key]);
        }
        FieldsSet(fields);
      case ListValue(values) =>
        forall i | 0 <= i < |values|
          ensures ToJson(values[i]).Some? <==> AllSet(values[i])
        {
          MarshalsWhenSet(values[i]);
        }
        ItemsSet(values);
      case Unset => assert Metadata.ValueAt(v, []) == Some(Unset);
      case _ =>
    }
  }

  lemma FieldsSet(fields: map<string, Value>)
    ensures AllSet(StructValue(fields)) <==> forall key | key in fields :: AllSet(fields[key])
  {
    var v := StructValue(fields);
    if AllSet(v) {
      forall key, path | key in fields
        ensures Metadata.ValueAt(fields[key], path) != Some(Unset)
      {
        var whole := [Metadata.Field(key)] + path;
        assert whole[1..] == path;
        assert Metadata.ValueAt(v, whole) != Some(Unset);
      }
    }
    forall path: seq<Metadata.Step> | forall key | key in fields :: AllSet(fields[key])
      ensures Metadata.ValueAt(v, path) != Some(Unset)
    {
      if path != [] && path[0].Field? && path[0].name in fields {
        assert AllSet(fields[path[0].name]);
      }
    }
  }

  lemma ItemsSet(values: seq<Value>)
    ensures AllSet(ListValue(values)) <==> forall i | 0 <= i < |values| :: AllSet(values[i])
  {
    var v := ListValue(values);
    if AllSet(v) {
      forall i: nat, path | i < |values|
        ensures Metadata.ValueAt(values[i], path) != Some(Unset)
      {
        var whole := [Metadata.Item(i)] + path;
        assert whole[1..] == path;
        assert Metadata.ValueAt(v, whole) != Some(Unset);
      }
    }
    forall path: seq<Metadata.Step> | forall i | 0 <= i < |values| :: AllSet(values[i])
      ensures Metadata.ValueAt(v, path) != Some(Unset)
    {
      if path != [] && path[0].Item? && path[0].index < |values| {
        assert AllSet(values[path[0].index]);
      }
    }
  }

  /** The kanban asks to terminate `service`. */
  ghost predicate Names(k: StatusKanban, service: string) {
    && "type" in k.metadata && k.metadata["type"] == StringValue("terminate")
    && "name" in k.metadata && k.metadata["name"] == StringValue(service)
    && AllSet(StructValue(k.metadata))
  }

  /** A termination names its service in the metadata's "name", under the "type" "terminate", and leaves no value unset. */
  lemma TerminatesWhenNamed(k: StatusKanban, service: string)
    ensures TerminatedService(k) == Some(service) <==> Names(k, service)
  {
    var json := ToJson(StructValue(k.metadata));
    MarshalsWhenSet(StructValue(k.metadata));
    if json.Some? {
      assert json.value.members.Keys == k.metadata.Keys;
      assert forall key | key in k.metadata :: ToJson(k.metadata[key]) == Some(json.value.members[key]);
    }
  }

  predicate IsTermination(setting: AionSetting, k: StatusKanban) {
    && k.connectionKey == SERVICE_BROKER
    && TerminatedService(k).Some?
    && TerminatedService(k).value in setting.microservices
    && !setting.microservices[TerminatedService(k).value].always
  }

  /** A request to terminate a service that is always on is routed like any kanban; a bad request is dropped. */
  predicate IsDropped(setting: AionSetting, name: string, k: StatusKanban) {
    || (k.connectionKey == SERVICE_BROKER &&
        (TerminatedService(k).None? || TerminatedService(k).value !in setting.microservices))
    || GetNextServiceList(setting, name, k.connectionKey).None?
  }

  function Routed(setting: AionSetting, name: string, k: StatusKanban): seq<Act> {
    if IsTermination(setting, k) || IsDropped(setting, name, k) then []
    else
      var list := GetNextServiceList(setting, name, k.connectionKey).value;
      Dispatched(setting, k, list, |list|)
  }

  /** The kanbans of the instance, each with the setting in force when it arrives. */
  type Arrivals = seq<(AionSetting, StatusKanban)>

  /** How many kanbans the watcher of `name` takes, the terminating one included. */
  function Taken(arrivals: Arrivals): (n: nat)
    ensures n <= |arrivals|
  {
    if arrivals == [] then 0
    else if IsTermination(arrivals[0].0, arrivals[0].1) then 1
    else 1 + Taken(arrivals[1..])
  }

  /** What each kanban comes to. */
  function RoutedEach(name: string, arrivals: Arrivals): seq<seq<Act>> {
    seq(|arrivals|, i requires 0 <= i < |arrivals| => Routed(arrivals[i].0, name, arrivals[i].1))
  }

  function RoutedAll(name: string, arrivals: Arrivals): seq<Act> {
    Concat(RoutedEach(name, arrivals))
  }

  lemma RoutedMore(name: string, arrivals: Arrivals, i: nat)
    requires i < |arrivals|
    ensures RoutedAll(name, arrivals[..i + 1])
         == RoutedAll(name, arrivals[..i]) + Routed(arrivals[i].0, name, arrivals[i].1)
  {
    var now := Routed(arrivals[i].0, name, arrivals[i].1);
    assert RoutedEach(name, arrivals[..i + 1]) == RoutedEach(name, arrivals[..i]) + [now];
    ConcatSnoc(RoutedEach(name, arrivals[..i]), now);
  }

  predicate NumbersFit(arrivals: Arrivals) {
    forall i | 0 <= i < |arrivals| :: -0x8000_0000 <= arrivals[i].1.processNumber < 0x8000_0000
  }

  /**
   Requests to the broker that are not passed on: those that name no service of the setting, and those that end the watcher
   because the service they name is not always on.
   */
  ghost predicate KeptBack(setting: AionSetting, k: StatusKanban) {
    && k.connectionKey == "service-broker"
    && !exists service :: Names(k, service) && service in setting.microservices && setting.microservices[service].always
  }

  /** The kanban ends the watcher: it asks to terminate a known service that is not always on. */
  ghost predicate Ends(setting: AionSetting, k: StatusKanban) {
    && k.connectionKey == "service-broker"
    && exists service :: Names(k, service) && service in setting.microservices && !setting.microservices[service].always
  }

  lemma EndsIs(setting: AionSetting, k: StatusKanban)
    ensures IsTermination(setting, k) <==> Ends(setting, k)
  {
    forall service
      ensures TerminatedService(k) == Some(service) <==> Names(k, service)
    {
      TerminatesWhenNamed(k, service);
    }
  }

  /** The routing entries of a service; a service that the setting does not have has none. */
  function NextServices(setting: AionSetting, name: string): map<string, seq<NextServiceSetting>> {
    if name in setting.microservices then setting.microservices[name].nextService else map[]
  }

  /** Who passes a kanban on: the entry of its key, whatever "default" has; else the entry "default"; else nobody. */
  ghost predicate Asks(setting: AionSetting, name: string, k: StatusKanban, ds: seq<Delivery>) {
    var next := NextServices(setting, name);
    && (k.connectionKey in next ==> ds == AllAsked(setting, k, next[k.connectionKey]))
    && (k.connectionKey !in next && "default" in next ==> ds == AllAsked(setting, k, next["default"]))
    && (k.connectionKey !in next && "default" !in next ==> ds == [])
  }

  ghost predicate AskedOf(setting: AionSetting, name: string, k: StatusKanban, ds: seq<Delivery>) {
    if KeptBack(setting, k) then ds == [] else Asks(setting, name, k, ds)
  }

  lemma KeptBackIs(setting: AionSetting, k: StatusKanban)
    ensures KeptBack(setting, k)
       <==> k.connectionKey == SERVICE_BROKER
            && (|| TerminatedService(k).None? || TerminatedService(k).value !in setting.microservices
                || !setting.microservices[TerminatedService(k).value].always)
  {
    forall service
      ensures TerminatedService(k) == Some(service) <==> Names(k, service)
    {
      TerminatesWhenNamed(k, service);
    }
  }

  /**
   What one kanban comes to, from the setting's entries alone: nothing if it is kept back; else one delivery for every
   setting under its connection key, or failing that under "default", each as asked.
   */
  lemma RoutedByKey(setting: AionSetting, name: string, k: StatusKanban)
    requires -0x8000_0000 <= k.processNumber < 0x8000_0000
    ensures var acts := Routed(setting, name, k);
            && AllDelivered(acts) && AskedOf(setting, name, k, Deliveries(acts))
            && (KeptBack(setting, k) ==> acts == [])
  {
    KeptBackIs(setting, k);
    if !IsTermination(setting, k) && !IsDropped(setting, name, k) {
      OneDeliveryEach(setting, k, GetNextServiceList(setting, name, k.connectionKey).value);
    }
  }

  /** Deliveries for each kanban in turn: `per[i]` are those of the i-th. */
  ghost predicate AskedInTurn(name: string, arrivals: Arrivals, per: seq<seq<Delivery>>) {
    |per| == |arrivals| && forall i | 0 <= i < |per| :: AskedOf(arrivals[i].0, name, arrivals[i].1, per[i])
  }

  /** Conservation over a whole run of the watcher, the setting changing under way as it may. */
  lemma RunConserves(name: string, arrivals: Arrivals) returns (per: seq<seq<Delivery>>)
    requires NumbersFit(arrivals)
    ensures AskedInTurn(name, arrivals, per)
    ensures Deliveries(RoutedAll(name, arrivals)) == Concat(per) && AllDelivered(RoutedAll(name, arrivals))
  {
    var parts := RoutedEach(name, arrivals);
    per := seq(|arrivals|, i requires 0 <= i < |arrivals| => Deliveries(parts[i]));
    forall i | 0 <= i < |arrivals|
      ensures AskedOf(arrivals[i].0, name, arrivals[i].1, per[i]) && AllDelivered(parts[i])
    {
      RoutedByKey(arrivals[i].0, name, arrivals[i].1);
    }
    DeliveriesConcat(parts, per);
  }

  /** The watcher takes kanbans up to the first termination, and only that one ends it. */
  lemma {:induction false} StopsExactlyAt(arrivals: Arrivals, n: nat)
    requires n <= |arrivals|
    ensures n == Taken(arrivals) <==>
            && (forall i | 0 <= i < n - 1 :: !Ends(arrivals[i].0, arrivals[i].1))
            && (n < |arrivals| ==> n > 0 && Ends(arrivals[n - 1].0, arrivals[n - 1].1))
            && (n == 0 ==> arrivals == [])
    decreases |arrivals|
  {
    if arrivals != [] {
      var first, rest := Ends(arrivals[0].0, arrivals[0].1), arrivals[1..];
      EndsIs(arrivals[0].0, arrivals[0].1);
      if n > 0 && !first {
        StopsExactlyAt(rest, n - 1);
        assert forall i | 1 <= i < |arrivals| :: arrivals[i] == rest[i - 1];
      }
    }
  }

  /** A kanban in memory; what is queued for a device is the record, not a copy. */
  class KanbanRecord {
    var value: StatusKanban

    constructor (value: StatusKanban)
      ensures this.value == value
    {
      this.value := value;
    }
  }

  /** `log` says what was done with which kanban at the time; `queued` are the records waiting to be sent to devices. */
  class BrokerWatcher {
    var aionSetting: AionSetting
    var log: seq<Act>
    var queued: seq<KanbanRecord>

    constructor (setting: AionSetting)
      ensures aionSetting == setting && log == [] && queued == []
    {
      aionSetting, log, queued := setting, [], [];
    }

    method SendFileToDevice(device: string, k: KanbanRecord, service: string, number: int, addr: string)
      modifies `log, `queued
      ensures log == old(log) + [ToDevice(device, addr, service, Int32(number), k.value)]
      ensures queued == old(queued) + [k]
    {
      log := log + [ToDevice(device, addr, service, Int32(number), k.value)];
      queued := queued + [k];
    }

    /** Whether the write succeeds makes no difference to what follows. */
    method WriteKanban(key: string, k: StatusKanban)
      modifies `log
      ensures log == old(log) + [Write(key, k)]
    {
      log := log + [Write(key, k)];
    }

    method RequestStart(service: string, number: int)
      modifies `log
      ensures log == old(log) + [StartRequest(service, number)]
    {
      log := log + [StartRequest(service, number)];
    }

    /** One round of the routing loop, which may overwrite the device name in the record. */
    method DispatchTo(k: KanbanRecord, next: NextServiceSetting)
      modifies `log, `queued, k
      ensures k.value == AfterRound(aionSetting, old(k.value), next)
      ensures log == old(log) + RoundActs(aionSetting, old(k.value), next)
      ensures queued == old(queued) + Copies(k, QueuedBy(RoundActs(aionSetting, old(k.value), next)))
    {
      QueuedByRound(aionSetting, k.value, next);
      var number := GetNextNumber(k.value.processNumber, next.numberPattern);
      var nextDeviceName := k.value.nextDeviceName;
      if nextDeviceName == "" {
        nextDeviceName := next.nextDevice;
      }
      if nextDeviceName in aionSetting.devices {
        SendFileToDevice(nextDeviceName, k, next.nextServiceName, number, aionSetting.devices[nextDeviceName].addr);
      } else {
        k.value := k.value.(nextDeviceName := aionSetting.deviceName);
        WriteKanban(KeyByStatusType(next.nextServiceName, number, BeforeStatus), k.value);
        RequestStart(next.nextServiceName, number);
      }
    }

    /**
     The routing loop carries an overwritten record from round to round and still follows the closed form. All it queues
     for devices is that one record, once for each of them; in the end it holds `AfterDispatch`.
     */
    method Dispatch(k: KanbanRecord, list: seq<NextServiceSetting>)
      modifies `log, `queued, k
      ensures log == old(log) + Dispatched(aionSetting, old(k.value), list, |list|)
      ensures k.value == AfterDispatch(aionSetting, old(k.value), list)
      ensures queued == old(queued) + Copies(k, QueuedBy(Dispatched(aionSetting, old(k.value), list, |list|)))
    {
      ghost var kanban := k.value;
      assert k.value == kanban.(nextDeviceName := CarriedName(aionSetting, kanban, list, 0));
      for i := 0 to |list|
        invariant k.value == kanban.(nextDeviceName := CarriedName(aionSetting, kanban, list, i))
        invariant log == old(log) + Dispatched(aionSetting, kanban, list, i)
        invariant queued == old(queued) + Copies(k, QueuedBy(Dispatched(aionSetting, kanban, list, i)))
      {
        RoundAppends(aionSetting, kanban, list, i, old(log), old(queued), k);
        DispatchTo(k, list[i]);
      }
    }

    /** One kanban; `stop` tells the watcher to end. */
    method Route(name: string, k: KanbanRecord) returns (stop: bool)
      modifies `log, `queued, k
      ensures log == old(log) + Routed(aionSetting, name, old(k.value))
      ensures stop <==> IsTermination(aionSetting, old(k.value))
      ensures queued == old(queued) + Copies(k, QueuedBy(Routed(aionSetting, name, old(k.value))))
    {
      if k.value.connectionKey == SERVICE_BROKER {
        var service := TerminatedService(k.value);
        if service.None? || service.value !in aionSetting.microservices {
          return false;
        }
        if !aionSetting.microservices[service.value].always {
          return true;
        }
      }
      var list := GetNextServiceList(aionSetting, name, k.value.connectionKey);
      if list.None? {
        return false;
      }
      Dispatch(k, list.value);
      return false;
    }

    /** The receive loop may replace the setting between two kanbans. */
    method WatchMicroservice(name: string, arrivals: Arrivals) returns (taken: nat)
      modifies this
      ensures taken == Taken(arrivals)
      ensures log == old(log) + RoutedAll(name, arrivals[..taken])
    {
      for i := 0 to |arrivals|
        invariant Taken(arrivals) == i + Taken(arrivals[i..])
        invariant log == old(log) + RoutedAll(name, arrivals[..i])
      {
        aionSetting := arrivals[i].0;
        RoutedMore(name, arrivals, i);
        var k := new KanbanRecord(arrivals[i].1);
        var stop := Route(name, k);
        Reassociate(old(log), RoutedAll(name, arrivals[..i]), Routed(arrivals[i].0, name, arrivals[i].1));
        if stop {
          return i + 1;
        }
      }
      return |arrivals|;
    }

    /** A kanban from another device: written to the service's queue, then its start is requested. */
    method ReceiveKanban(service: string, number: int, k: StatusKanban)
      modifies `log
      ensures log == old(log) + [Write(BeforeKey(service, number), k), StartRequest(service, number)]
    {
      WriteKanban(KeyByStatusType(service, number, BeforeStatus), k);
      RequestStart(service, number);
    }
  }
}
