/** The project setting the service broker works from (config/project.go). */
module Settings {
  import opened Basics

  datatype NextServiceSetting = NextServiceSetting(nextServiceName: string, numberPattern: string, nextDevice: string)

  /** The fields of a service that loading or the broker's loops read. */
  datatype Microservice = Microservice(
    scale: int,
    startup: bool,
    always: bool,
    multiple: bool,
    nextService: map<string, seq<NextServiceSetting>>,
    position: string,
    network: string,
    serviceAccount: string,
    tag: string,
    env: Option<map<string, string>>)

  datatype Device = Device(addr: string, aionHome: string, username: string, password: string, sshPort: int)

  /** A setting before loading: a service may lack its data. */
  datatype RawSetting = RawSetting(
    deviceName: string,
    services: map<string, Option<Microservice>>,
    devices: map<string, Device>)

  datatype AionSetting = AionSetting(
    deviceName: string,
    microservices: map<string, Microservice>,
    devices: map<string, Device>)

  const DEFAULT_AION_HOME := "/var/lib/aion"
  const DEFAULT_USERNAME := "aion"
  const DEFAULT_PASSWORD := "aion"
  const DEFAULT_SSH_PORT := 22
  const DEFAULT_POSITION := "Runtime"
  const DEFAULT_SCALE := 1
  const DEFAULT_SERVICE_ACCOUNT := "default"
  const DEFAULT_NETWORK := "ClusterIP"
  const DEFAULT_TAG := "latest"
  const SPREAD := "n"
  const DEFAULT_NUMBER := "0"
  const DEFAULT_CONNECTION_KEY := "default"

  function Or(text: string, default: string): string {
    if text == "" then default else text
  }

  function FillPatterns(list: seq<NextServiceSetting>): seq<NextServiceSetting> {
    if list == [] then []
    else
      var last := list[|list| - 1];
      FillPatterns(list[..|list| - 1]) + [last.(numberPattern := Or(last.numberPattern, SPREAD))]
  }

  /** The defaults of a service, but for its routing entries. */
  function FillFields(ms: Microservice): Microservice {
    ms.(position := Or(ms.position, DEFAULT_POSITION),
        scale := if ms.scale <= 0 then DEFAULT_SCALE else ms.scale,
        network := Or(ms.network, DEFAULT_NETWORK),
        serviceAccount := Or(ms.serviceAccount, DEFAULT_SERVICE_ACCOUNT),
        tag := Or(ms.tag, DEFAULT_TAG),
        env := if ms.env.None? then Some(map[]) else ms.env)
  }

  function Fill(ms: Microservice): Microservice {
    FillFields(ms).(nextService := map key | key in ms.nextService :: FillPatterns(ms.nextService[key]))
  }

  function FillDevice(d: Device): Device {
    d.(aionHome := Or(d.aionHome, DEFAULT_AION_HOME),
       username := Or(d.username, DEFAULT_USERNAME),
       password := Or(d.password, DEFAULT_PASSWORD),
       sshPort := if d.sshPort == 0 then DEFAULT_SSH_PORT else d.sshPort)
  }

  function FillAll(services: map<string, Option<Microservice>>): map<string, Microservice> {
    map name | name in services && services[name].Some? :: Fill(services[name].value)
  }

  function FillAllDevices(devices: map<string, Device>): map<string, Device> {
    map name | name in devices :: FillDevice(devices[name])
  }

  predicate SomeMissing(services: map<string, Option<Microservice>>) {
    exists name | name in services :: services[name].None?
  }

  /** `setInitializeValue`: a service without data is an error; otherwise devices and services get their defaults. */
  function Initialized(raw: RawSetting): Option<AionSetting> {
    if SomeMissing(raw.services) then None
    else Some(AionSetting(raw.deviceName, FillAll(raw.services), FillAllDevices(raw.devices)))
  }

  lemma {:induction false} PatternsFilled(list: seq<NextServiceSetting>)
    ensures |FillPatterns(list)| == |list|
    ensures forall i | 0 <= i < |list| ::
              && FillPatterns(list)[i].numberPattern != ""
              && (list[i].numberPattern != "" ==> FillPatterns(list)[i] == list[i])
              && (list[i].numberPattern == "" ==> FillPatterns(list)[i] == list[i].(numberPattern := SPREAD))
    decreases |list|
  {
    if list != [] {
      PatternsFilled(list[..|list| - 1]);
    }
  }

  lemma {:induction false} FillPatternsTwice(list: seq<NextServiceSetting>)
    ensures FillPatterns(FillPatterns(list)) == FillPatterns(list)
  {
    PatternsFilled(list);
    PatternsFilled(FillPatterns(list));
  }

  lemma FillTwice(ms: Microservice)
    ensures Fill(Fill(ms)) == Fill(ms)
  {
    forall key | key in ms.nextService
      ensures FillPatterns(Fill(ms).nextService[key]) == Fill(ms).nextService[key]
    {
      FillPatternsTwice(ms.nextService[key]);
    }
    assert Fill(Fill(ms)).nextService == Fill(ms).nextService;
  }

  function Present(services: map<string, Microservice>): map<string, Option<Microservice>> {
    map name | name in services :: Some(services[name])
  }

  /** The setting as it would be read again. */
  function Reread(setting: AionSetting): RawSetting {
    RawSetting(setting.deviceName, Present(setting.microservices), setting.devices)
  }

  lemma FillAllKeys(services: map<string, Option<Microservice>>)
    requires !SomeMissing(services)
    ensures FillAll(services).Keys == services.Keys
  {
    assert forall name | name in services :: services[name].Some?;
  }

  lemma NoneMissing(services: map<string, Microservice>)
    ensures Present(services).Keys == services.Keys && !SomeMissing(Present(services))
  {
  }

  lemma FillAllTwice(services: map<string, Option<Microservice>>)
    requires !SomeMissing(services)
    ensures FillAll(Present(FillAll(services))) == FillAll(services)
  {
    var once := FillAll(services);
    FillAllKeys(services);
    NoneMissing(once);
    FillAllKeys(Present(once));
    forall name | name in once
      ensures FillAll(Present(once))[name] == once[name]
    {
      FillTwice(services[name].value);
    }
  }

  lemma FillAllDevicesTwice(devices: map<string, Device>)
    ensures FillAllDevices(FillAllDevices(devices)) == FillAllDevices(devices)
  {
  }

  /** `r` is `d` with what was not set filled in. */
  predicate CompletedDevice(d: Device, r: Device) {
    && r.addr == d.addr
    && (if d.aionHome == "" then r.aionHome == "/var/lib/aion" else r.aionHome == d.aionHome)
    && (if d.username == "" then r.username == "aion" else r.username == d.username)
    && (if d.password == "" then r.password == "aion" else r.password == d.password)
    && (if d.sshPort == 0 then r.sshPort == 22 else r.sshPort == d.sshPort)
  }

  predicate CompletedList(list: seq<NextServiceSetting>, r: seq<NextServiceSetting>) {
    && |r| == |list|
    && forall i | 0 <= i < |list| ::
         if list[i].numberPattern == "" then r[i] == list[i].(numberPattern := "n") else r[i] == list[i]
  }

  predicate Completed(ms: Microservice, r: Microservice) {
    && (if ms.scale <= 0 then r.scale == 1 else r.scale == ms.scale)
    && r.startup == ms.startup && r.always == ms.always && r.multiple == ms.multiple
    && (if ms.position == "" then r.position == "Runtime" else r.position == ms.position)
    && (if ms.network == "" then r.network == "ClusterIP" else r.network == ms.network)
    && (if ms.serviceAccount == "" then r.serviceAccount == "default" else r.serviceAccount == ms.serviceAccount)
    && (if ms.tag == "" then r.tag == "latest" else r.tag == ms.tag)
    && (if ms.env.None? then r.env == Some(map[]) else r.env == ms.env)
    && r.nextService.Keys == ms.nextService.Keys
    && forall key | key in ms.nextService :: CompletedList(ms.nextService[key], r.nextService[key])
  }

  lemma Fills(ms: Microservice)
    ensures Completed(ms, Fill(ms))
  {
    forall key | key in ms.nextService
      ensures CompletedList(ms.nextService[key], Fill(ms).nextService[key])
    {
      PatternsFilled(ms.nextService[key]);
    }
  }

  /**
   Loading fails exactly when some service lacks its data. A loaded setting has the same name, services and devices, with
   what was not set filled in and nothing else changed; and loading it again changes nothing.
   */
  lemma LoadedSetting(raw: RawSetting)
    ensures Initialized(raw).None? <==> exists name | name in raw.services :: raw.services[name].None?
    ensures Initialized(raw).Some? ==>
              var loaded := Initialized(raw).value;
              && loaded.deviceName == raw.deviceName
              && loaded.microservices.Keys == raw.services.Keys && loaded.devices.Keys == raw.devices.Keys
              && (forall name | name in raw.services && raw.services[name].Some? ::
                    Completed(raw.services[name].value, loaded.microservices[name]))
              && (forall name | name in raw.devices :: CompletedDevice(raw.devices[name], loaded.devices[name]))
              && Initialized(Reread(loaded)) == Some(loaded)
  {
    if Initialized(raw).Some? {
      Loads(raw);
    }
  }

  lemma Loads(raw: RawSetting)
    requires !SomeMissing(raw.services)
    ensures var loaded := AionSetting(raw.deviceName, FillAll(raw.services), FillAllDevices(raw.devices));
            && loaded.microservices.Keys == raw.services.Keys
            && (forall name | name in raw.services && raw.services[name].Some? ::
                  Completed(raw.services[name].value, loaded.microservices[name]))
            && Initialized(Reread(loaded)) == Some(loaded)
  {
    FillAllKeys(raw.services);
    forall name | name in raw.services && raw.services[name].Some?
      ensures Completed(raw.services[name].value, FillAll(raw.services)[name])
    {
      Fills(raw.services[name].value);
    }
    NoneMissing(FillAll(raw.services));
    FillAllTwice(raw.services);
    FillAllDevicesTwice(raw.devices);
  }

  // ---- The loops of config/project.go

  method FillList(settings: seq<NextServiceSetting>) returns (list: seq<NextServiceSetting>)
    ensures list == FillPatterns(settings)
  {
    list := settings;
    for i := 0 to |settings|
      invariant |list| == |settings|
      invariant list[..i] == FillPatterns(settings[..i]) && list[i..] == settings[i..]
    {
      PatternsFilled(settings[..i]);
      assert settings[..i + 1][..i] == settings[..i];
      assert list[i] == list[i..][0] == settings[i];
      if list[i].numberPattern == "" {
        list := list[i := list[i].(numberPattern := SPREAD)];
      }
    }
    assert settings[..|settings|] == settings && list[..|settings|] == list;
  }

  method FillService(ms: Microservice) returns (r: Microservice)
    ensures r == Fill(ms)
  {
    var next := ms.nextService;
    var left := ms.nextService.Keys;
    while left != {}
      invariant left <= ms.nextService.Keys == next.Keys
      invariant forall key | key in next ::
                  next[key] == if key in left then ms.nextService[key] else FillPatterns(ms.nextService[key])
      decreases left
    {
      var key :| key in left;
      var list := FillList(next[key]);
      next := next[key := list];
      left := left - {key};
    }
    r := FillFields(ms).(nextService := next);
    assert next == Fill(ms).nextService;
  }

  method FillDevices(devices: map<string, Device>) returns (r: map<string, Device>)
    ensures r == FillAllDevices(devices)
  {
    r := devices;
    var left := devices.Keys;
    while left != {}
      invariant left <= devices.Keys == r.Keys
      invariant forall name | name in r :: r[name] == if name in left then devices[name] else FillDevice(devices[name])
      decreases left
    {
      var name :| name in left;
      r := r[name := FillDevice(r[name])];
      left := left - {name};
    }
  }

  method FillServices(services: map<string, Option<Microservice>>) returns (r: Option<map<string, Microservice>>)
    ensures r == if SomeMissing(services) then None else Some(FillAll(services))
  {
    var done: map<string, Microservice> := map[];
    var left := services.Keys;
    while left != {}
      invariant left <= services.Keys && done.Keys == services.Keys - left
      invariant forall name | name in done :: services[name].Some? && done[name] == Fill(services[name].value)
      decreases left
    {
      var name :| name in left;
      if services[name].None? {
        return None;
      }
      var ms := FillService(services[name].value);
      done := done[name := ms];
      left := left - {name};
    }
    assert done == FillAll(services);
    return Some(done);
  }

  method SetInitializeValue(raw: RawSetting) returns (r: Option<AionSetting>)
    ensures r == Initialized(raw)
  {
    var devices := FillDevices(raw.devices);
    var services := FillServices(raw.services);
    if services.None? {
      return None;
    }
    return Some(AionSetting(raw.deviceName, services.value, devices));
  }
}
