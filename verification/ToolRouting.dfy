/**
 Which tools the model is offered, and where a call by name goes. The registry hides a native tool that a device
 publishes by looking at prefixed names; the dispatcher prefers a device by looking at bare capabilities.
 */
module ToolRouting {
  import opened Wrappers

  /** `text` stands for the description and the parameter schema. */
  datatype ToolDefinition = ToolDefinition(name: string, text: string)

  datatype Device = Device(name: string, capabilities: seq<ToolDefinition>)

  datatype Tool =
    | Native(definition: ToolDefinition)
    | Mcp(servers: seq<seq<ToolDefinition>>)
    | Devices(devices: seq<Device>)

  /** Where a call goes: a connected device, an entry of the dispatcher's list (and which of its servers), nowhere. */
  datatype Target = ToDevice(device: nat, capability: string) | ToStatic(entry: nat, server: nat) | NotFound

  function Find(definitions: seq<ToolDefinition>, name: string): (d: Option<ToolDefinition>)
    ensures d.Some? ==> d.value in definitions && d.value.name == name
    ensures d.None? ==> forall x | x in definitions :: x.name != name
  {
    if definitions == [] then None
    else if definitions[0].name == name then Some(definitions[0])
    else Find(definitions[1..], name)
  }

  // ----- Names.

  // What follows the first underscore.
  function AfterUnderscore(name: string): Option<string> {
    if name == [] then None else if name[0] == '_' then Some(name[1..]) else AfterUnderscore(name[1..])
  }

  function BareCapability(name: string): string {
    AfterUnderscore(name).GetOr(name)
  }

  function Prefixed(device: string, capability: string): string {
    device + "_" + capability
  }

  // `strip_prefix(..).unwrap_or(name)`.
  function Stripped(device: string, name: string): string {
    if device + "_" <= name then name[|device| + 1..] else name
  }

  /** The prefix comes off again exactly when the device's name has no underscore of its own; else some of it stays. */
  lemma {:induction false} BareExactly(device: string, capability: string)
    ensures BareCapability(Prefixed(device, capability)) == capability <==> '_' !in device
    ensures '_' in device ==> |BareCapability(Prefixed(device, capability))| > |capability|
  {
    var name := Prefixed(device, capability);
    if device == [] {
      assert name[1..] == capability;
    } else if device[0] == '_' {
      assert |name[1..]| > |capability|;
    } else {
      assert name[1..] == Prefixed(device[1..], capability);
      BareExactly(device[1..], capability);
      assert AfterUnderscore(name) == AfterUnderscore(name[1..]);
      AlwaysSome(device[1..], capability);
      assert '_' in device <==> '_' in device[1..];
    }
  }

  lemma {:induction false} AlwaysSome(device: string, capability: string)
    ensures AfterUnderscore(Prefixed(device, capability)).Some?
  {
    var name := Prefixed(device, capability);
    if device != [] && device[0] != '_' {
      assert name[1..] == Prefixed(device[1..], capability);
      AlwaysSome(device[1..], capability);
    }
  }

  lemma {:induction false} StrippedPrefixed(device: string, capability: string)
    ensures Stripped(device, Prefixed(device, capability)) == capability
  {
  }

  // ----- Devices.

  predicate Publishes(d: Device, capability: string) {
    exists c | c in d.capabilities :: c.name == capability
  }

  // `handles_bare`.
  predicate HandlesBare(d: Device, name: string) {
    Publishes(d, name)
  }

  // `handles`: one of the device's published definitions has this very name.
  predicate Handles(d: Device, name: string) {
    exists c | c in d.capabilities :: Prefixed(d.name, c.name) == name
  }

  function DeviceDefinitions(name: string, capabilities: seq<ToolDefinition>): seq<ToolDefinition> {
    if capabilities == [] then []
    else DeviceDefinitions(name, capabilities[..|capabilities| - 1]) +
         [capabilities[|capabilities| - 1].(name := Prefixed(name, capabilities[|capabilities| - 1].name))]
  }

  function AllDefinitions(devices: seq<Device>): seq<ToolDefinition> {
    if devices == [] then []
    else AllDefinitions(devices[..|devices| - 1]) +
         DeviceDefinitions(devices[|devices| - 1].name, devices[|devices| - 1].capabilities)
  }

  lemma {:induction false} DeviceDefinitionsAre(name: string, capabilities: seq<ToolDefinition>, d: ToolDefinition)
    ensures d in DeviceDefinitions(name, capabilities)
            <==> exists c | c in capabilities :: d == c.(name := Prefixed(name, c.name))
  {
    if capabilities != [] {
      var front, last := capabilities[..|capabilities| - 1], capabilities[|capabilities| - 1];
      DeviceDefinitionsAre(name, front, d);
      assert capabilities == front + [last];
    }
  }

  /** The device layer: exactly the connected devices' capabilities under their prefixed names. */
  lemma {:induction false} AllDefinitionsAre(devices: seq<Device>, d: ToolDefinition)
    ensures d in AllDefinitions(devices)
            <==> exists v, c | v in devices && c in v.capabilities :: d == c.(name := Prefixed(v.name, c.name))
  {
    if devices != [] {
      var front, last := devices[..|devices| - 1], devices[|devices| - 1];
      AllDefinitionsAre(front, d);
      DeviceDefinitionsAre(last.name, last.capabilities, d);
      assert devices == front + [last];
    }
  }

  // ----- The registry.

  function Registered(tools: seq<ToolDefinition>, d: ToolDefinition): seq<ToolDefinition> {
    if tools == [] then [d]
    else if tools[0].name == d.name then [d] + tools[1..]
    else [tools[0]] + Registered(tools[1..], d)
  }

  function Names(tools: seq<ToolDefinition>): (s: seq<string>)
    ensures |s| == |tools| && forall i | 0 <= i < |s| :: s[i] == tools[i].name
  {
    seq(|tools|, i requires 0 <= i < |tools| => tools[i].name)
  }

  ghost predicate Distinct(names: seq<string>) {
    forall i, j | 0 <= i < j < |names| :: names[i] != names[j]
  }

  /** Re-registering replaces in place, so the order the prompt shows never changes; a new name goes last. */
  lemma {:induction false} RegisterKeepsOrder(tools: seq<ToolDefinition>, d: ToolDefinition)
    ensures Names(Registered(tools, d)) == if d.name in Names(tools) then Names(tools) else Names(tools) + [d.name]
    ensures Distinct(Names(tools)) ==> Distinct(Names(Registered(tools, d)))
  {
    RegisteredNames(tools, d);
  }

  lemma {:induction false} RegisteredNames(tools: seq<ToolDefinition>, d: ToolDefinition)
    ensures Names(Registered(tools, d)) == if d.name in Names(tools) then Names(tools) else Names(tools) + [d.name]
  {
    if tools != [] {
      NamesSplit(tools[0], tools[1..]);
      assert tools == [tools[0]] + tools[1..];
      if tools[0].name == d.name {
        NamesSplit(d, tools[1..]);
      } else {
        RegisteredNames(tools[1..], d);
        NamesSplit(tools[0], Registered(tools[1..], d));
      }
    }
  }

  lemma {:induction false} NamesSplit(first: ToolDefinition, rest: seq<ToolDefinition>)
    ensures Names([first] + rest) == [first.name] + Names(rest)
  {
  }

  /** The last definition registered under a name is the one found. */
  lemma {:induction false} RegisterFinds(tools: seq<ToolDefinition>, d: ToolDefinition, name: string)
    requires Distinct(Names(tools))
    ensures Find(Registered(tools, d), name) == if name == d.name then Some(d) else Find(tools, name)
  {
    if tools != [] && tools[0].name != d.name {
      DistinctRest(tools);
      RegisterFinds(tools[1..], d, name);
      assert Registered(tools, d)[1..] == Registered(tools[1..], d);
    } else if tools != [] {
      assert Registered(tools, d)[1..] == tools[1..];
    }
  }

  lemma {:induction false} DistinctRest(tools: seq<ToolDefinition>)
    requires tools != [] && Distinct(Names(tools))
    ensures Distinct(Names(tools[1..]))
  {
    var names, rest := Names(tools), Names(tools[1..]);
    assert forall i | 0 <= i < |rest| :: rest[i] == names[i + 1];
  }

  predicate Shadowed(deviceTools: seq<ToolDefinition>, name: string) {
    exists d | d in deviceTools :: BareCapability(d.name) == name
  }

  function Unshadowed(tools: seq<ToolDefinition>, deviceTools: seq<ToolDefinition>): seq<ToolDefinition> {
    if tools == [] then []
    else Unshadowed(tools[..|tools| - 1], deviceTools) +
         if Shadowed(deviceTools, tools[|tools| - 1].name) then [] else [tools[|tools| - 1]]
  }

  lemma {:induction false} UnshadowedAre(tools: seq<ToolDefinition>, deviceTools: seq<ToolDefinition>,
      d: ToolDefinition)
    ensures d in Unshadowed(tools, deviceTools) <==> d in tools && !Shadowed(deviceTools, d.name)
  {
    if tools != [] {
      UnshadowedAre(tools[..|tools| - 1], deviceTools, d);
      assert tools == tools[..|tools| - 1] + [tools[|tools| - 1]];
    }
  }

  // `definitions`: the device layer first, then the statics it does not shadow.
  function Offered(tools: seq<ToolDefinition>, deviceTools: seq<ToolDefinition>): seq<ToolDefinition> {
    deviceTools + Unshadowed(tools, deviceTools)
  }

  function Got(tools: seq<ToolDefinition>, deviceTools: seq<ToolDefinition>, name: string): Option<ToolDefinition> {
    var found := Find(tools, name);
    if found.Some? && !Shadowed(deviceTools, name) then found else Find(deviceTools, name)
  }

  /** `get` finds a definition under a name exactly when `definitions` offers one. */
  lemma {:induction false} GetAgreesWithOffered(tools: seq<ToolDefinition>, deviceTools: seq<ToolDefinition>,
      name: string)
    ensures var got := Got(tools, deviceTools, name);
            if got.Some? then got.value in Offered(tools, deviceTools) && got.value.name == name
            else forall d | d in Offered(tools, deviceTools) :: d.name != name
  {
    forall d: ToolDefinition ensures d in Offered(tools, deviceTools)
                                     <==> d in deviceTools || (d in tools && !Shadowed(deviceTools, d.name)) {
      UnshadowedAre(tools, deviceTools, d);
    }
  }

  class ToolRegistry {
    var tools: seq<ToolDefinition>
    var deviceTools: seq<ToolDefinition>

    constructor ()
      ensures tools == [] && deviceTools == []
    {
      tools, deviceTools := [], [];
    }

    method Register(definition: ToolDefinition)
      modifies this`tools
      ensures tools == Registered(old(tools), definition)
    {
      var i := 0;
      while i < |tools| && tools[i].name != definition.name
        invariant i <= |tools|
        invariant Registered(tools, definition) == tools[..i] + Registered(tools[i..], definition)
      {
        assert tools[i..][1..] == tools[i + 1..];
        assert tools[..i] + [tools[i]] == tools[..i + 1];
        i := i + 1;
      }
      if i < |tools| {
        assert tools[i..][1..] == tools[i + 1..];
        tools := tools[i := definition];
      } else {
        assert tools[i..] == [];
        tools := tools + [definition];
      }
    }

    method SetDeviceTools(definitions: seq<ToolDefinition>)
      modifies this`deviceTools
      ensures deviceTools == definitions
    {
      deviceTools := definitions;
    }

    method Get(name: string) returns (definition: Option<ToolDefinition>)
      ensures definition == Got(tools, deviceTools, name)
    {
      definition := Find(tools, name);
      if definition.None? || Shadowed(deviceTools, name) {
        definition := Find(deviceTools, name);
      }
    }

    method Definitions() returns (offered: seq<ToolDefinition>)
      ensures offered == Offered(tools, deviceTools)
    {
      var statics: seq<ToolDefinition> := [];
      for i := 0 to |tools|
        invariant statics == Unshadowed(tools[..i], deviceTools)
      {
        assert tools[..i + 1][..i] == tools[..i];
        if !Shadowed(deviceTools, tools[i].name) {
          statics := statics + [tools[i]];
        }
      }
      assert tools[..|tools|] == tools;
      offered := deviceTools + statics;
    }
  }

  // ----- The dispatcher.

  function WithoutDevices(tools: seq<Tool>): seq<Tool> {
    if tools == [] then []
    else WithoutDevices(tools[..|tools| - 1]) + if tools[|tools| - 1].Devices? then [] else [tools[|tools| - 1]]
  }

  // `sync_devices` with the registry's current snapshot.
  function Synced(tools: seq<Tool>, snapshot: seq<Device>): seq<Tool> {
    WithoutDevices(tools) + if snapshot == [] then [] else [Devices(snapshot)]
  }

  function FirstDevices(tools: seq<Tool>): Option<seq<Device>> {
    if tools == [] then None
    else if tools[0].Devices? then Some(tools[0].devices)
    else FirstDevices(tools[1..])
  }

  // The first device at or after `from` that handles the prefixed name.
  function Handler(devices: seq<Device>, name: string, from: nat): (i: Option<nat>)
    requires from <= |devices|
    ensures i.Some? ==> from <= i.value < |devices| && Handles(devices[i.value], name)
    ensures i.Some? ==> forall k | from <= k < i.value :: !Handles(devices[k], name)
    ensures i.None? ==> forall k | from <= k < |devices| :: !Handles(devices[k], name)
    decreases |devices| - from
  {
    if from == |devices| then None
    else if Handles(devices[from], name) then Some(from)
    else Handler(devices, name, from + 1)
  }

  function BareMatches(devices: seq<Device>, name: string): (s: seq<nat>)
    ensures forall i | i in s :: i < |devices| && HandlesBare(devices[i], name)
  {
    if devices == [] then []
    else BareMatches(devices[..|devices| - 1], name) +
         if HandlesBare(devices[|devices| - 1], name) then [|devices| - 1] else []
  }

  lemma {:induction false} BareMatchesComplete(devices: seq<Device>, name: string, i: nat)
    requires i < |devices| && HandlesBare(devices[i], name)
    ensures i in BareMatches(devices, name)
  {
    if i < |devices| - 1 {
      BareMatchesComplete(devices[..|devices| - 1], name, i);
    }
  }

  function DeviceRoute(devices: seq<Device>, name: string): Target {
    match Handler(devices, name, 0)
    case Some(i) => ToDevice(i, Stripped(devices[i].name, name))
    case None =>
      var bare := BareMatches(devices, name);
      if |bare| == 1 then assert bare[0] in bare; ToDevice(bare[0], Stripped(devices[bare[0]].name, name)) else NotFound
  }

  // The server within an MCP entry, or zero for a native tool.
  function Server(tool: Tool, name: string): Option<nat> {
    match tool
    case Native(d) => if d.name == name then Some(0) else None
    case Mcp(servers) => ServerIn(servers, name)
    case Devices(_) => None
  }

  function ServerIn(servers: seq<seq<ToolDefinition>>, name: string): (i: Option<nat>)
    ensures i.Some? ==> i.value < |servers| && Find(servers[i.value], name).Some?
    ensures i.Some? ==> forall k | 0 <= k < i.value :: Find(servers[k], name).None?
    ensures i.None? ==> forall k | 0 <= k < |servers| :: Find(servers[k], name).None?
  {
    if servers == [] then None
    else if Find(servers[0], name).Some? then Some(0)
    else match ServerIn(servers[1..], name) case Some(i) => Some(i + 1) case None => None
  }

  function StaticRoute(tools: seq<Tool>, name: string, from: nat): (t: Target)
    requires from <= |tools|
    ensures !t.ToDevice?
    ensures t.ToStatic? ==> from <= t.entry < |tools| && Server(tools[t.entry], name) == Some(t.server)
    ensures t.ToStatic? ==> forall k | from <= k < t.entry :: Server(tools[k], name).None?
    ensures t.NotFound? ==> forall k | from <= k < |tools| :: Server(tools[k], name).None?
    decreases |tools| - from
  {
    if from == |tools| then NotFound
    else match Server(tools[from], name)
      case Some(s) => ToStatic(from, s)
      case None => StaticRoute(tools, name, from + 1)
  }

  function Route(tools: seq<Tool>, name: string): Target {
    match FirstDevices(tools)
    case Some(devices) =>
      var t := DeviceRoute(devices, name);
      if t.ToDevice? then t else StaticRoute(tools, name, 0)
    case None => StaticRoute(tools, name, 0)
  }

  function AllDeviceTools(tools: seq<Tool>): seq<ToolDefinition> {
    if tools == [] then []
    else AllDeviceTools(tools[..|tools| - 1]) +
         if tools[|tools| - 1].Devices? then AllDefinitions(tools[|tools| - 1].devices) else []
  }

  class ToolDispatcher {
    var tools: seq<Tool>
    // Whether a live device registry is wired up.
    var wired: bool

    constructor (wired: bool)
      ensures tools == [] && this.wired == wired
    {
      tools, this.wired := [], wired;
    }

    method Register(tool: Tool)
      modifies this`tools
      ensures tools == old(tools) + [tool]
    {
      tools := tools + [tool];
    }

    method SyncDevices(snapshot: seq<Device>)
      modifies this`tools
      ensures tools == if wired then Synced(old(tools), snapshot) else old(tools)
    {
      if !wired {
        return;
      }
      var kept: seq<Tool> := [];
      for i := 0 to |tools|
        invariant tools == old(tools) && kept == WithoutDevices(tools[..i])
      {
        assert tools[..i + 1][..i] == tools[..i];
        if !tools[i].Devices? {
          kept := kept + [tools[i]];
        }
      }
      assert tools[..|tools|] == tools;
      tools := kept;
      if snapshot != [] {
        tools := tools + [Devices(snapshot)];
      }
    }

    method DispatchToDevice(name: string) returns (target: Target)
      ensures target == match FirstDevices(tools) case Some(devices) => DeviceRoute(devices, name) case None => NotFound
    {
      var i := 0;
      while i < |tools| && !tools[i].Devices?
        invariant i <= |tools| && FirstDevices(tools) == FirstDevices(tools[i..])
      {
        assert tools[i..][1..] == tools[i + 1..];
        i := i + 1;
      }
      if i == |tools| {
        return NotFound;
      }
      target := RouteAmong(tools[i].devices, name);
    }

    static method RouteAmong(devices: seq<Device>, name: string) returns (target: Target)
      ensures target == DeviceRoute(devices, name)
    {
      var i := 0;
      while i < |devices| && !Handles(devices[i], name)
        invariant i <= |devices| && Handler(devices, name, 0) == Handler(devices, name, i)
      {
        i := i + 1;
      }
      if i < |devices| {
        return ToDevice(i, Stripped(devices[i].name, name));
      }
      var bare: seq<nat> := [];
      for j := 0 to |devices|
        invariant bare == BareMatches(devices[..j], name)
      {
        assert devices[..j + 1][..j] == devices[..j];
        if HandlesBare(devices[j], name) {
          bare := bare + [j];
        }
      }
      assert devices[..|devices|] == devices;
      if |bare| != 1 {
        return NotFound;
      }
      assert bare[0] in bare;
      target := ToDevice(bare[0], Stripped(devices[bare[0]].name, name));
    }

    /** Where a call goes, with the devices connected at this moment. */
    method Dispatch(name: string, snapshot: seq<Device>) returns (target: Target)
      modifies this`tools
      ensures tools == if wired then Synced(old(tools), snapshot) else old(tools)
      ensures target == Route(tools, name)
    {
      SyncDevices(snapshot);
      target := DispatchToDevice(name);
      if target.ToDevice? {
        return;
      }
      var i := 0;
      while i < |tools|
        invariant i <= |tools| && StaticRoute(tools, name, 0) == StaticRoute(tools, name, i)
      {
        match Server(tools[i], name) {
          case Some(server) =>
            return ToStatic(i, server);
          case None =>
        }
        i := i + 1;
      }
      target := NotFound;
    }

    method DeviceTools(snapshot: seq<Device>) returns (definitions: seq<ToolDefinition>)
      modifies this`tools
      ensures tools == if wired then Synced(old(tools), snapshot) else old(tools)
      ensures definitions == AllDeviceTools(tools)
    {
      SyncDevices(snapshot);
      definitions := [];
      ghost var synced := tools;
      for i := 0 to |tools|
        invariant tools == synced && definitions == AllDeviceTools(tools[..i])
      {
        assert tools[..i + 1][..i] == tools[..i];
        if tools[i].Devices? {
          var more := Concatenated(tools[i].devices);
          definitions := definitions + more;
        }
      }
      assert tools[..|tools|] == tools;
    }

    static method Concatenated(devices: seq<Device>) returns (definitions: seq<ToolDefinition>)
      ensures definitions == AllDefinitions(devices)
    {
      definitions := [];
      for i := 0 to |devices|
        invariant definitions == AllDefinitions(devices[..i])
      {
        assert devices[..i + 1][..i] == devices[..i];
        definitions := definitions + DeviceDefinitions(devices[i].name, devices[i].capabilities);
      }
      assert devices[..|devices|] == devices;
    }
  }

  // ----- Offered names against routed names, for one snapshot of the devices.

  // Distinct names without underscores.
  ghost predicate PlainNames(devices: seq<Device>) {
    && (forall d | d in devices :: '_' !in d.name)
    && (forall i, j | 0 <= i < j < |devices| :: devices[i].name != devices[j].name)
  }

  lemma {:induction false} SyncedParts(tools: seq<Tool>, devices: seq<Device>)
    ensures FirstDevices(Synced(tools, devices)) == if devices == [] then None else Some(devices)
    ensures AllDeviceTools(Synced(tools, devices)) == AllDefinitions(devices)
  {
    var kept := WithoutDevices(tools);
    NoDevicesLeft(tools);
    NoDeviceTools(kept);
    if devices == [] {
      assert kept + [] == kept;
      FirstAfter(kept, []);
    } else {
      assert Synced(tools, devices)[..|kept|] == kept;
      FirstAfter(kept, [Devices(devices)]);
    }
  }

  lemma {:induction false} NoDevicesLeft(tools: seq<Tool>)
    ensures forall t | t in WithoutDevices(tools) :: !t.Devices?
  {
    if tools != [] {
      NoDevicesLeft(tools[..|tools| - 1]);
    }
  }

  lemma {:induction false} NoDeviceTools(tools: seq<Tool>)
    requires forall t | t in tools :: !t.Devices?
    ensures AllDeviceTools(tools) == []
  {
    if tools != [] {
      assert tools[|tools| - 1] in tools;
      NoDeviceTools(tools[..|tools| - 1]);
    }
  }

  lemma {:induction false} FirstAfter(tools: seq<Tool>, rest: seq<Tool>)
    requires forall t | t in tools :: !t.Devices?
    ensures FirstDevices(tools + rest) == FirstDevices(rest)
  {
    if tools != [] {
      assert (tools + rest)[1..] == tools[1..] + rest;
      FirstAfter(tools[1..], rest);
    } else {
      assert tools + rest == rest;
    }
  }

  // Prefixed names of plainly named devices never collide.
  lemma {:induction false} PrefixedInjective(d: string, c: string, d': string, c': string)
    requires '_' !in d && '_' !in d' && Prefixed(d, c) == Prefixed(d', c')
    ensures d == d' && c == c'
  {
    BareExactly(d, c);
    BareExactly(d', c');
    assert Prefixed(d, c)[..|d|] == d && Prefixed(d', c')[..|d'|] == d';
  }

  /** Every device tool the model is offered reaches that very device, under the capability it published. */
  lemma {:induction false} DeviceToolReachesItsDevice(tools: seq<Tool>, devices: seq<Device>, i: nat, c: ToolDefinition)
    requires PlainNames(devices) && i < |devices| && c in devices[i].capabilities
    ensures var name := Prefixed(devices[i].name, c.name);
            && c.(name := name) in AllDeviceTools(Synced(tools, devices))
            && Route(Synced(tools, devices), name) == ToDevice(i, c.name)
  {
    var name := Prefixed(devices[i].name, c.name);
    SyncedParts(tools, devices);
    AllDefinitionsAre(devices, c.(name := name));
    assert devices[i] in devices;
    StrippedPrefixed(devices[i].name, c.name);
    HandlerOfPrefixed(devices, i, c);
  }

  lemma {:induction false} HandlerOfPrefixed(devices: seq<Device>, i: nat, c: ToolDefinition)
    requires PlainNames(devices) && i < |devices| && c in devices[i].capabilities
    ensures Handler(devices, Prefixed(devices[i].name, c.name), 0) == Some(i)
  {
    var name := Prefixed(devices[i].name, c.name);
    assert Handles(devices[i], name);
    var h := Handler(devices, name, 0).value;
    var c' :| c' in devices[h].capabilities && Prefixed(devices[h].name, c'.name) == name;
    assert devices[h] in devices && devices[i] in devices;
    PrefixedInjective(devices[h].name, c'.name, devices[i].name, c.name);
  }

  /** With plain device names, the two implementations of "a device shadows a native tool" look at the same names. */
  lemma {:induction false} HiddenMeansPublishedBare(devices: seq<Device>, name: string)
    requires forall d | d in devices :: '_' !in d.name
    ensures Shadowed(AllDefinitions(devices), name) <==> exists d | d in devices :: HandlesBare(d, name)
  {
    if d :| d in AllDefinitions(devices) && BareCapability(d.name) == name {
      AllDefinitionsAre(devices, d);
      var v, c :| v in devices && c in v.capabilities && d == c.(name := Prefixed(v.name, c.name));
      BareExactly(v.name, c.name);
      assert HandlesBare(v, name);
    }
    if v :| v in devices && HandlesBare(v, name) {
      var c :| c in v.capabilities && c.name == name;
      AllDefinitionsAre(devices, c.(name := Prefixed(v.name, c.name)));
      BareExactly(v.name, c.name);
      assert c.(name := Prefixed(v.name, c.name)) in AllDefinitions(devices);
    }
  }

  /** The registry hides a name exactly when the dispatcher would send it to the device. */
  ghost predicate HidesWhatItHandles(device: Device) {
    forall name :: Shadowed(AllDefinitions([device]), name) <==> HandlesBare(device, name)
  }

  /** For one device the two agree on every name exactly when its own has no underscore or it publishes nothing. */
  lemma {:induction false} HiddenMeansHandledExactly(device: Device)
    ensures HidesWhatItHandles(device) <==> '_' !in device.name || device.capabilities == []
  {
    if '_' !in device.name || device.capabilities == [] {
      forall name ensures Shadowed(AllDefinitions([device]), name) <==> HandlesBare(device, name) {
        AgreesAt(device, name);
      }
    } else {
      var c := LongestName(device.capabilities);
      var hidden := BareCapability(Prefixed(device.name, c.name));
      BareExactly(device.name, c.name);
      AllDefinitionsAre([device], c.(name := Prefixed(device.name, c.name)));
      assert device in [device] && c.(name := Prefixed(device.name, c.name)) in AllDefinitions([device]);
      assert Shadowed(AllDefinitions([device]), hidden);
      assert !HandlesBare(device, hidden);
    }
  }

  lemma {:induction false} AgreesAt(device: Device, name: string)
    requires '_' !in device.name || device.capabilities == []
    ensures Shadowed(AllDefinitions([device]), name) <==> HandlesBare(device, name)
  {
    if '_' !in device.name {
      HiddenMeansPublishedBare([device], name);
      assert (exists d | d in [device] :: HandlesBare(d, name)) <==> HandlesBare(device, name) by {
        assert device in [device];
      }
    } else {
      assert [device][..0] == [];
    }
  }

  lemma {:induction false} LongestName(capabilities: seq<ToolDefinition>) returns (longest: ToolDefinition)
    requires capabilities != []
    ensures longest in capabilities && forall c | c in capabilities :: |c.name| <= |longest.name|
  {
    var front, last := capabilities[..|capabilities| - 1], capabilities[|capabilities| - 1];
    assert capabilities == front + [last];
    longest := last;
    if front != [] {
      var best := LongestName(front);
      if |best.name| > |last.name| {
        longest := best;
      }
    }
  }

  // The first entry of the dispatcher's list that has a tool of this name.
  ghost predicate ReachesStatic(tools: seq<Tool>, name: string, t: Target) {
    && t.ToStatic? && t.entry < |tools| && Server(tools[t.entry], name) == Some(t.server)
    && forall k | 0 <= k < t.entry :: Server(tools[k], name).None?
  }

  /** Every static tool the model is offered reaches the first native or MCP provider of that name, never a device. */
  lemma {:induction false} OfferedStaticReachesItsProvider(
      tools: seq<Tool>, registered: seq<ToolDefinition>, devices: seq<Device>, d: ToolDefinition)
    requires PlainNames(devices)
    requires d in Unshadowed(registered, AllDefinitions(devices))
    // The tool exists, and does not carry some device's prefixed name.
    requires exists t | t in WithoutDevices(tools) :: Server(t, d.name).Some?
    requires forall v | v in devices :: !Handles(v, d.name)
    ensures d in registered
    ensures ReachesStatic(Synced(tools, devices), d.name, Route(Synced(tools, devices), d.name))
  {
    UnshadowedAre(registered, AllDefinitions(devices), d);
    HiddenMeansPublishedBare(devices, d.name);
    NoBareMatches(devices, d.name);
    NoHandler(devices, d.name);
    RouteSynced(tools, devices, d.name);
    StaticReached(tools, devices, d.name);
  }

  lemma {:induction false} StaticReached(tools: seq<Tool>, devices: seq<Device>, name: string)
    requires exists t | t in WithoutDevices(tools) :: Server(t, name).Some?
    ensures ReachesStatic(Synced(tools, devices), name, StaticRoute(Synced(tools, devices), name, 0))
  {
    var t :| t in WithoutDevices(tools) && Server(t, name).Some?;
    assert t in Synced(tools, devices);
  }

  lemma {:induction false} NoBareMatches(devices: seq<Device>, name: string)
    requires forall v | v in devices :: !HandlesBare(v, name)
    ensures BareMatches(devices, name) == []
  {
    if devices != [] {
      assert devices[|devices| - 1] in devices;
      NoBareMatches(devices[..|devices| - 1], name);
    }
  }

  /** A bare name reaches a device exactly when one device alone publishes it; otherwise the static tools decide. */
  lemma {:induction false} BareNameRoute(tools: seq<Tool>, devices: seq<Device>, name: string)
    requires forall v | v in devices :: !Handles(v, name)
    ensures var t := Route(Synced(tools, devices), name);
            && (t.ToDevice? <==> exists i | 0 <= i < |devices| :: OnlyPublisher(devices, name, i))
            && (t.ToDevice? ==> t.device < |devices| && OnlyPublisher(devices, name, t.device))
            && (!t.ToDevice? ==> t == StaticRoute(Synced(tools, devices), name, 0))
  {
    RouteSynced(tools, devices, name);
    OneBareMatch(devices, name);
    NoHandler(devices, name);
  }

  // Routing over the synced list: the devices first, if any.
  lemma {:induction false} RouteSynced(tools: seq<Tool>, devices: seq<Device>, name: string)
    ensures Route(Synced(tools, devices), name)
            == var t := DeviceRoute(devices, name); if t.ToDevice? then t else StaticRoute(Synced(tools, devices),
                      name, 0)
  {
    SyncedParts(tools, devices);
  }

  lemma {:induction false} NoHandler(devices: seq<Device>, name: string)
    requires forall v | v in devices :: !Handles(v, name)
    ensures Handler(devices, name, 0) == None
  {
  }

  lemma {:induction false} OneBareMatch(devices: seq<Device>, name: string)
    ensures var bare := BareMatches(devices, name);
            && (|bare| == 1 ==> bare[0] < |devices| && OnlyPublisher(devices, name, bare[0]))
            && ((exists i | 0 <= i < |devices| :: OnlyPublisher(devices, name, i)) ==> |bare| == 1)
  {
    var bare := BareMatches(devices, name);
    if |bare| == 1 {
      assert bare[0] in bare;
      OnlyMatch(devices, name, bare[0]);
    }
    if i :| 0 <= i < |devices| && OnlyPublisher(devices, name, i) {
      BareMatchesComplete(devices, name, i);
      if |bare| > 1 {
        BareMatchesSorted(devices, name);
        assert bare[0] in bare && bare[1] in bare && bare[0] < bare[1];
      }
    }
  }

  lemma {:induction false} OnlyMatch(devices: seq<Device>, name: string, i: nat)
    requires BareMatches(devices, name) == [i] && i < |devices| && HandlesBare(devices[i], name)
    ensures OnlyPublisher(devices, name, i)
  {
    forall k | 0 <= k < |devices| && HandlesBare(devices[k], name) ensures k == i {
      BareMatchesComplete(devices, name, k);
    }
  }

  ghost predicate OnlyPublisher(devices: seq<Device>, name: string, i: nat)
    requires i < |devices|
  {
    HandlesBare(devices[i], name) && forall k | 0 <= k < |devices| :: HandlesBare(devices[k], name) ==> k == i
  }

  lemma {:induction false} BareMatchesSorted(devices: seq<Device>, name: string)
    ensures forall i, j | 0 <= i < j < |BareMatches(devices, name)| ::
              BareMatches(devices, name)[i] < BareMatches(devices, name)[j]
  {
    if devices != [] {
      var front := BareMatches(devices[..|devices| - 1], name);
      BareMatchesSorted(devices[..|devices| - 1], name);
      forall i | 0 <= i < |front| ensures front[i] < |devices| - 1 {
        assert front[i] in front;
      }
    }
  }

  /**
   Without plain names the two disagree: a device named "my_pc" that publishes "open" hides a native "pc_open" it
   cannot take calls for, and takes the calls of a native "open" that stays on offer.
   */
  lemma {:induction false} UnderscoredNameDisagrees(open: ToolDefinition, pcOpen: ToolDefinition)
    requires open.name == "open" && pcOpen.name == "pc_open"
    ensures var devices := [Device("my_pc", [open])];
            && open in Offered([open, pcOpen], AllDefinitions(devices))
            && pcOpen !in Offered([open, pcOpen], AllDefinitions(devices))
    ensures var all := Synced([Native(open), Native(pcOpen)], [Device("my_pc", [open])]);
            Route(all, "open") == ToDevice(0, "open") && Route(all, "pc_open") == ToStatic(1, 0)
  {
    UnderscoredOffer(open, pcOpen);
    UnderscoredRoute(open, pcOpen);
  }

  lemma {:induction false} UnderscoredOffer(open: ToolDefinition, pcOpen: ToolDefinition)
    requires open.name == "open" && pcOpen.name == "pc_open"
    ensures var devices := [Device("my_pc", [open])];
            && open in Offered([open, pcOpen], AllDefinitions(devices))
            && pcOpen !in Offered([open, pcOpen], AllDefinitions(devices))
  {
    var d := open.(name := Prefixed("my_pc", "open"));
    LoneDefinition(Device("my_pc", [open]), open);
    assert d.name == "my_pc_open";
    assert d.name[1..] == "y_pc_open" && d.name[1..][1..] == "_pc_open" && d.name[1..][1..][1..] == "pc_open";
    assert BareCapability(d.name) == "pc_open";
    assert d in [d];
    UnshadowedAre([open, pcOpen], [d], open);
    UnshadowedAre([open, pcOpen], [d], pcOpen);
  }

  lemma {:induction false} UnderscoredRoute(open: ToolDefinition, pcOpen: ToolDefinition)
    requires open.name == "open" && pcOpen.name == "pc_open"
    ensures var all := Synced([Native(open), Native(pcOpen)], [Device("my_pc", [open])]);
            Route(all, "open") == ToDevice(0, "open") && Route(all, "pc_open") == ToStatic(1, 0)
  {
    var device, tools := Device("my_pc", [open]), [Native(open), Native(pcOpen)];
    RouteSynced(tools, [device], "open");
    RouteSynced(tools, [device], "pc_open");
    LoneRoutes(device, open, "open");
    LoneRoutes(device, open, "pc_open");
    SecondNative(open, pcOpen, [device]);
  }

  lemma {:induction false} SecondNative(a: ToolDefinition, b: ToolDefinition, devices: seq<Device>)
    requires a.name != b.name
    ensures StaticRoute(Synced([Native(a), Native(b)], devices), b.name, 0) == ToStatic(1, 0)
  {
    var tools := [Native(a), Native(b)];
    assert tools[..1] == [Native(a)] && tools[..1][..0] == [];
    assert WithoutDevices(tools[..1]) == tools[..1];
    assert WithoutDevices(tools) == tools;
    var all := Synced(tools, devices);
    assert all[0] == Native(a) && all[1] == Native(b);
    assert Server(all[0], b.name).None? && Server(all[1], b.name) == Some(0);
  }

  lemma {:induction false} LoneDefinition(device: Device, c: ToolDefinition)
    requires device.capabilities == [c]
    ensures AllDefinitions([device]) == [c.(name := Prefixed(device.name, c.name))]
  {
    assert [device][..0] == [] && [c][..0] == [];
    assert DeviceDefinitions(device.name, [c]) == [c.(name := Prefixed(device.name, c.name))];
  }

  lemma {:induction false} LoneRoutes(device: Device, c: ToolDefinition, name: string)
    requires device.capabilities == [c] && device.name != [] && name != [] && name[0] != device.name[0]
    ensures DeviceRoute([device], name) == if name == c.name then ToDevice(0, name) else NotFound
  {
    assert [device][..0] == [];
    assert c in device.capabilities;
    assert Prefixed(device.name, c.name)[0] == device.name[0] && !Handles(device, name);
    assert HandlesBare(device, name) <==> name == c.name;
    assert BareMatches([device], name) == if name == c.name then [0] else [];
  }

  // ----- Start-up: native definitions, then every MCP server's, the first server's winning.

  function BootMcp(tools: seq<ToolDefinition>, published: seq<ToolDefinition>, seen: set<string>): seq<ToolDefinition>
    decreases |published|
  {
    if published == [] then tools
    else if published[0].name in seen then BootMcp(tools, published[1..], seen)
    else BootMcp(Registered(tools, published[0]), published[1..], seen + {published[0].name})
  }

  function AllPublished(servers: seq<seq<ToolDefinition>>): seq<ToolDefinition> {
    if servers == [] then [] else servers[0] + AllPublished(servers[1..])
  }

  lemma {:induction false} BootFind(tools: seq<ToolDefinition>, published: seq<ToolDefinition>, seen: set<string>,
      name: string)
    requires Distinct(Names(tools))
    ensures Find(BootMcp(tools, published, seen), name)
            == if name !in seen && Find(published, name).Some? then Find(published, name) else Find(tools, name)
    decreases |published|
  {
    if published != [] {
      if published[0].name in seen {
        BootFind(tools, published[1..], seen, name);
      } else {
        RegisterKeepsOrder(tools, published[0]);
        RegisterFinds(tools, published[0], name);
        BootFind(Registered(tools, published[0]), published[1..], seen + {published[0].name}, name);
      }
    }
  }

  lemma {:induction false} FirstServerFind(servers: seq<seq<ToolDefinition>>, name: string)
    ensures Find(AllPublished(servers), name)
            == match ServerIn(servers, name) case Some(i) => Find(servers[i], name) case None => None
  {
    if servers != [] {
      FirstServerFind(servers[1..], name);
      FindConcat(servers[0], AllPublished(servers[1..]), name);
      match ServerIn(servers[1..], name) {
        case Some(i) => assert servers[1..][i] == servers[i + 1];
        case None =>
      }
    }
  }

  lemma {:induction false} FindConcat(a: seq<ToolDefinition>, b: seq<ToolDefinition>, name: string)
    ensures Find(a + b, name) == if Find(a, name).Some? then Find(a, name) else Find(b, name)
  {
    if a != [] {
      assert (a + b)[1..] == a[1..] + b;
      FindConcat(a[1..], b, name);
    } else {
      assert a + b == b;
    }
  }

  function Natives(definitions: seq<ToolDefinition>): (tools: seq<Tool>)
    ensures |tools| == |definitions| && forall i | 0 <= i < |tools| :: tools[i] == Native(definitions[i])
  {
    seq(|definitions|, i requires 0 <= i < |definitions| => Native(definitions[i]))
  }

  // The definition the provider a call reaches published itself.
  function ProviderDefinition(tools: seq<Tool>, t: Target, name: string): Option<ToolDefinition>
    requires t.ToStatic? ==> t.entry < |tools| && Server(tools[t.entry], name) == Some(t.server)
  {
    if !t.ToStatic? then None
    else match tools[t.entry]
      case Native(d) => Some(d)
      case Mcp(servers) => Find(servers[t.server], name)
      case Devices(_) => None
  }

  /**
   The definition shown for a static name is the one of the provider its calls reach, exactly unless an MCP server
   publishes a native tool's name differently: the model then sees the server's definition, and calls the native tool.
   */
  lemma {:induction false} BootAgreesExactly(natives: seq<ToolDefinition>, servers: seq<seq<ToolDefinition>>,
      name: string)
    requires Distinct(Names(natives))
    ensures var tools := Natives(natives) + [Mcp(servers)];
            var shown := Find(BootMcp(natives, AllPublished(servers), {}), name);
            var mcp := Find(AllPublished(servers), name);
            shown == ProviderDefinition(tools, StaticRoute(tools, name, 0), name)
            <==> (Find(natives, name).None? || mcp.None? || mcp == Find(natives, name))
  {
    BootFind(natives, AllPublished(servers), {}, name);
    FirstServerFind(servers, name);
    BootRoute(natives, servers, name);
  }

  lemma {:induction false} BootRoute(natives: seq<ToolDefinition>, servers: seq<seq<ToolDefinition>>, name: string)
    requires Distinct(Names(natives))
    ensures var tools := Natives(natives) + [Mcp(servers)];
            ProviderDefinition(tools, StaticRoute(tools, name, 0), name)
            == if Find(natives, name).Some? then Find(natives, name)
               else match ServerIn(servers, name) case Some(i) => Find(servers[i], name) case None => None
  {
    var tools := Natives(natives) + [Mcp(servers)];
    var t := StaticRoute(tools, name, 0);
    if Find(natives, name).Some? {
      var i :| 0 <= i < |natives| && natives[i] == Find(natives, name).value;
      assert Server(tools[i], name) == Some(0);
      assert Names(natives)[t.entry] == Names(natives)[i];
    } else {
      forall k | 0 <= k < |natives| ensures Server(tools[k], name).None? {
        assert natives[k] in natives;
      }
      assert tools[|natives|] == Mcp(servers);
    }
  }
}
