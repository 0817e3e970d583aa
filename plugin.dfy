/** The plugin object, `FuPlugin`: the bookkeeping fields the daemon and the plugin's
    own module update one call at a time, and the signals the object emits, kept as
    the list of signals emitted so far. */
module Plugin {
  import opened GLib
  import opened FwupdEnums
  import opened PluginHelpers
  import opened PluginDevices
  import opened PluginRunners

  /** An object put in the plugin's cache; only its identity matters here. */
  type ObjectRef = nat

  /** The signals of the plugin object, with the arguments the model keeps. */
  datatype Signal =
    | DeviceAddedSignal(deviceId: Option<string>)
    | DeviceRemovedSignal(deviceId: Option<string>)
    | DeviceRegisterSignal(deviceId: Option<string>)
    | RulesChangedSignal
    | RecoldplugSignal
    | ColdplugDelaySignal(duration: uint32)
    | SecurityChangedSignal
    | FirmwareGtypeSignal(firmwareId: string, gtype: nat)

  /** The device-added signals for the devices recorded, in order. */
  function AddedSignals(ds: seq<Device>): (s: seq<Signal>)
    ensures |s| == |ds|
  {
    seq(|ds|, k requires 0 <= k < |ds| => DeviceAddedSignal(ds[k].id))
  }

  /** An add emits device-added first for the device itself, under its own ID,
      and emits no more signals than the tree holds devices. */
  lemma AddTreeSignalsDeviceFirst(d: Device, ctx: AddContext)
    requires d.idResolvable
    ensures AddedSignals(AddTree(d, ctx).added)[0] == DeviceAddedSignal(d.id)
    ensures |AddedSignals(AddTree(d, ctx).added)| <= Size(d)
  {
    AddTreeBounded(d, ctx);
  }

  lemma AddedSignalsAppend(a: seq<Device>, b: seq<Device>)
    ensures AddedSignals(a + b) == AddedSignals(a) + AddedSignals(b)
  {
    assert forall k :: 0 <= k < |a + b| ==> AddedSignals(a + b)[k] == (AddedSignals(a) + AddedSignals(b))[k];
  }

  /** No value occurs twice. */
  predicate NoDuplicates<T(==)>(s: seq<T>)
  {
    forall i, j :: 0 <= i < j < |s| ==> s[i] != s[j]
  }

  class Plugin {
    var name: Option<string>
    var flags: set<PluginFlag>
    /** The loaded module, as the hooks it exports; None until it is opened. */
    var loaded: Option<Module>
    var order: uint32
    var priority: uint32
    /** One name list per rule kind; a kind with no entry has never had a rule added. */
    var rules: map<PluginRule, seq<Option<string>>>
    var devices: seq<Device>
    var buildHash: Option<string>
    var udevSubsystems: seq<Option<string>>
    /** Created by the first `CacheAdd`. */
    var cache: Option<map<string, ObjectRef>>
    /** Created by the first `AddReportMetadata`. */
    var reportMetadata: Option<map<string, string>>
    /** The zero-filled private data block, allocated at most once. */
    var data: Option<seq<bv8>>
    var emitted: seq<Signal>

    /** `fu_plugin_new`: nothing loaded, nothing recorded. */
    constructor ()
      ensures name.None? && flags == {} && loaded.None?
      ensures order == 0 && priority == 0 && rules == map[]
      ensures devices == [] && buildHash.None? && udevSubsystems == []
      ensures cache.None? && reportMetadata.None? && data.None? && emitted == []
    {
      name := None;
      flags := {};
      loaded := None;
      order := 0;
      priority := 0;
      rules := map[];
      devices := [];
      buildHash := None;
      udevSubsystems := [];
      cache := None;
      reportMetadata := None;
      data := None;
      emitted := [];
    }

    /** What the runners read from the plugin. */
    function Host(): Host
      reads this
    {
      PluginRunners.Host(flags, loaded, name)
    }

    // -------------------------------------------------------------------------
    // Name, build hash, private data, enabled state

    /** `fu_plugin_is_open`. A plugin that is not open has every runner of the
        dispatch rule succeed without calling anything. */
    function IsOpen(): (r: bool)
      reads this
      ensures !r ==> forall h, f :: Dispatch(Host(), h, f) == Pass
    {
      loaded.Some?
    }

    method SetName(n: Option<string>)
      modifies this`name
      ensures name == n
    {
      name := n;
    }

    /** `fu_plugin_set_build_hash`: the stored hash is replaced unless it is the same. */
    method SetBuildHash(hash: CString)
      modifies this`buildHash
      ensures buildHash == Some(hash)
    {
      if StrCmp0(buildHash, Some(hash)) == 0 {
        return;
      }
      buildHash := Some(hash);
    }

    /** `fu_plugin_alloc_data`: the first call allocates a zero-filled block of `size`
        bytes; every later call returns that block and allocates nothing. The block
        returned is always the one stored. `g_malloc0` of 0 bytes gives NULL, so a
        zero-sized request leaves the slot unset and a later call allocates again. */
    method AllocData(size: nat) returns (block: Option<seq<bv8>>)
      modifies this`data
      ensures block == data
      ensures old(data).Some? ==> data == old(data)
      ensures old(data).None? && size == 0 ==> data.None?
      ensures old(data).None? && size > 0 ==>
                data.Some? && |data.value| == size && forall i :: 0 <= i < size ==> data.value[i] == 0
    {
      if data.Some? {
        return data;
      }
      if size > 0 {
        data := Some(seq(size, _ => 0));
      }
      block := data;
    }

    /** `fu_plugin_get_enabled`. A plugin that is not enabled has every runner of
        the dispatch rule succeed without calling anything. */
    function Enabled(): (r: bool)
      reads this
      ensures !r ==> forall h, f :: Dispatch(Host(), h, f) == Pass
    {
      Disabled !in flags
    }

    /** `fu_plugin_set_enabled`: only the DISABLED flag changes. */
    method SetEnabled(enabled: bool)
      modifies this`flags
      ensures Enabled() == enabled
      ensures flags - {Disabled} == old(flags) - {Disabled}
    {
      if enabled {
        flags := flags - {Disabled};
      } else {
        flags := flags + {Disabled};
      }
    }

    /** `fu_plugin_open`. `result` is what loading the shared object gives (None when it
        cannot be loaded, with `loaderError` the loader's message). A failure marks the
        plugin FAILED_OPEN and USER_WARNING; a success names an unnamed plugin after its
        file. */
    method Open(filename: CString, result: Option<Module>, loaderError: string) returns (r: Outcome)
      modifies this`loaded, this`flags, this`name
      ensures loaded == result
      ensures result.None? ==>
                && r == Fail(Some(Error(IoFailed, "failed to open plugin " + filename + ": " + loaderError)))
                && flags == old(flags) + {FailedOpen, UserWarning}
                && name == old(name)
      ensures result.Some? ==> r == Pass && flags == old(flags)
      ensures result.Some? && old(name).None? ==> name == GuessNameFromFn(filename)
      ensures result.Some? && old(name).Some? ==> name == old(name)
    {
      loaded := result;
      if result.None? {
        flags := flags + {FailedOpen, UserWarning};
        return Fail(Some(Error(IoFailed, "failed to open plugin " + filename + ": " + loaderError)));
      }
      if name.None? {
        name := GuessNameFromFn(filename);
      }
      r := Pass;
    }

    // -------------------------------------------------------------------------
    // The object cache

    /** `fu_plugin_cache_lookup`: NULL when the cache was never created or has no `id`. */
    function CacheLookup(id: CString): (r: Option<ObjectRef>)
      reads this
      ensures cache.None? ==> r.None?
      ensures r.Some? <==> cache.Some? && id in cache.value
      ensures r.Some? ==> r.value == cache.value[id]
    {
      if cache.None? || id !in cache.value then None else Some(cache.value[id])
    }

    /** `fu_plugin_cache_add`: creates the cache if needed and maps `id` to `obj`,
        replacing what was there. */
    method CacheAdd(id: CString, obj: ObjectRef)
      modifies this`cache
      ensures CacheLookup(id) == Some(obj)
      ensures forall k: CString :: k != id ==> CacheLookup(k) == old(CacheLookup(k))
      ensures cache == Some((if old(cache).Some? then old(cache).value else map[])[id := obj])
    {
      var table := if cache.Some? then cache.value else map[];
      cache := Some(table[id := obj]);
    }

    /** `fu_plugin_cache_remove`: nothing happens when the cache was never created. */
    method CacheRemove(id: CString)
      modifies this`cache
      ensures CacheLookup(id).None?
      ensures forall k: CString :: k != id ==> CacheLookup(k) == old(CacheLookup(k))
      ensures old(cache).None? ==> cache.None?
      ensures old(cache).Some? ==> cache == Some(old(cache).value - {id})
    {
      if cache.None? {
        return;
      }
      cache := Some(cache.value - {id});
    }

    // -------------------------------------------------------------------------
    // Devices

    /** `fu_plugin_device_add`: records and stamps the device, emits device-added for
        it, then adds its children that were not created yet. `final` is the device as
        the call leaves it. */
    method DeviceAdd(device: Device, now: nat) returns (final: Device)
      modifies this`devices, this`emitted
      ensures var r := AddTree(device, AddContext(flags, name, now));
              && final == r.device
              && devices == old(devices) + r.added
              && emitted == old(emitted) + AddedSignals(r.added)
      decreases device, 1
    {
      if !device.idResolvable {
        return device;
      }
      var adopted := Adopt(device, AddContext(flags, name, now));
      var idx := |devices|;
      devices := devices + [adopted];
      emitted := emitted + [DeviceAddedSignal(adopted.id)];

      var kids := DeviceAddChildren(device.children, now);
      ghost var added := AddChildren(device.children, AddContext(flags, name, now)).added;
      final := adopted.(children := kids);
      devices := devices[idx := final];
      assert devices == old(devices) + ([final] + added);
      AddedSignalsAppend([final], added);
    }

    /** The loop of `fu_plugin_device_add` over the children of a device it added. */
    method DeviceAddChildren(children: seq<Device>, now: nat) returns (kids: seq<Device>)
      modifies this`devices, this`emitted
      ensures var r := AddChildren(children, AddContext(flags, name, now));
              && kids == r.children
              && devices == old(devices) + r.added
              && emitted == old(emitted) + AddedSignals(r.added)
      decreases children, 0
    {
      var ctx := AddContext(flags, name, now);
      kids := [];
      ghost var added: seq<Device> := [];
      var i := 0;
      while i < |children|
        invariant 0 <= i <= |children|
        invariant ctx == AddContext(flags, name, now)
        invariant AddChildren(children[..i], ctx) == ChildrenResult(kids, added)
        invariant devices == old(devices) + added
        invariant emitted == old(emitted) + AddedSignals(added)
      {
        var done := DeviceAddChild(children[i], now);
        ghost var step := AddChild(children[i], ctx);
        assert AddChildren(children[..i + 1], ctx) == ChildrenResult(kids + [done], added + step.added) by {
          AddChildrenStep(children, i, ctx);
        }
        assert emitted == old(emitted) + AddedSignals(added + step.added) by {
          AddedSignalsAppend(added, step.added);
        }
        assert devices == old(devices) + (added + step.added);
        kids := kids + [done];
        added := added + step.added;
        i := i + 1;
      }
      assert children[..i] == children;
    }

    /** One child in that loop: added only when it was not created yet. */
    method DeviceAddChild(child: Device, now: nat) returns (done: Device)
      modifies this`devices, this`emitted
      ensures var r := AddChild(child, AddContext(flags, name, now));
              && done == r.device
              && devices == old(devices) + r.added
              && emitted == old(emitted) + AddedSignals(r.added)
      decreases child, 2
    {
      if child.created == 0 {
        done := DeviceAdd(child, now);
      } else {
        done := child;
        assert devices == old(devices) + [];
        assert emitted == old(emitted) + AddedSignals([]);
      }
    }

    /** `fu_plugin_runner_backend_device_added` with its fallback
        `fu_plugin_backend_device_added`: without a hook of its own, the plugin
        creates its device from `device` and, when the device-created runner, the
        probe and the opening of the device all pass (and the plugin has updates for
        it, if it asked for that check), adds it with `fu_plugin_device_add` and runs
        the device-added notifier. */
    method RunBackendDeviceAdded(device: Device, ops: DeviceOps, deviceTypeKnown: bool,
                              onlySupported: bool, supported: bool, now: nat) returns (r: Outcome)
      modifies this`devices, this`emitted
      ensures var plan := BackendDeviceAddedPlan(Host(), ops, deviceTypeKnown, onlySupported, supported);
              && r == plan.0
              && (plan.1 ==>
                    var t := AddTree(device, AddContext(flags, name, now));
                    devices == old(devices) + t.added && emitted == old(emitted) + AddedSignals(t.added))
              && (!plan.1 ==> devices == old(devices) && emitted == old(emitted))
    {
      if Disabled in flags || loaded.None? {
        return Pass;
      }
      if BackendDeviceAdded in loaded.value {
        return Dispatch(Host(), BackendDeviceAdded, None);
      }
      if !deviceTypeKnown {
        return Fail(Some(NoDeviceGType));
      }
      r := CreateAndAddDevice(device, ops, onlySupported, supported, now);
    }

    /** The fallback `fu_plugin_backend_device_added`, for a plugin that is enabled,
        has a module and knows the type of device to create. */
    method CreateAndAddDevice(device: Device, ops: DeviceOps, onlySupported: bool, supported: bool, now: nat)
      returns (r: Outcome)
      requires Host().Active() && !Host().Exports(BackendDeviceAdded)
      modifies this`devices, this`emitted
      ensures var plan := BackendDeviceAddedPlan(Host(), ops, true, onlySupported, supported);
              && r == plan.0
              && (plan.1 ==>
                    var t := AddTree(device, AddContext(flags, name, now));
                    devices == old(devices) + t.added && emitted == old(emitted) + AddedSignals(t.added))
              && (!plan.1 ==> devices == old(devices) && emitted == old(emitted))
    {
      var created := RunDeviceCreated(Host());
      if created.Fail? {
        return created;
      }
      if onlySupported {
        if ops.probe.Fail? {
          return ops.probe;
        }
        if !supported {
          return Pass;
        }
      }
      if ops.open.Fail? {
        return ops.open;
      }
      var _ := DeviceAdd(device, now);
      // The device-added notifier follows; hooks only succeed or fail here.
      r := Pass;
    }

    /** `fu_plugin_device_remove`: forgets the device if it was recorded, and emits
        device-removed in any case. */
    method DeviceRemove(device: Device)
      modifies this`devices, this`emitted
      ensures devices == RemoveFirst(old(devices), device)
      ensures emitted == old(emitted) + [DeviceRemovedSignal(device.id)]
    {
      devices := RemoveFirst(devices, device);
      emitted := emitted + [DeviceRemovedSignal(device.id)];
    }

    /** `fu_plugin_device_register`: emits device-register for a device whose ID can
        be settled, and nothing otherwise. */
    method DeviceRegister(device: Device)
      modifies this`emitted
      ensures device.idResolvable ==> emitted == old(emitted) + [DeviceRegisterSignal(device.id)]
      ensures !device.idResolvable ==> emitted == old(emitted)
    {
      if !device.idResolvable {
        return;
      }
      emitted := emitted + [DeviceRegisterSignal(device.id)];
    }

    method RequestRecoldplug()
      modifies this`emitted
      ensures emitted == old(emitted) + [RecoldplugSignal]
    {
      emitted := emitted + [RecoldplugSignal];
    }

    method SecurityChanged()
      modifies this`emitted
      ensures emitted == old(emitted) + [SecurityChangedSignal]
    {
      emitted := emitted + [SecurityChangedSignal];
    }

    /** `fu_plugin_set_coldplug_delay`: a zero duration is refused; any other is
        requested, truncated to the maximum. */
    method SetColdplugDelay(duration: uint32)
      modifies this`emitted
      ensures duration == 0 ==> emitted == old(emitted)
      ensures duration > 0 ==> emitted == old(emitted) + [ColdplugDelaySignal(ClampColdplugDelay(duration))]
    {
      if duration == 0 {
        return;
      }
      emitted := emitted + [ColdplugDelaySignal(ClampColdplugDelay(duration))];
    }

    /** `fu_plugin_add_firmware_gtype`: without an ID, the ID is made from the type
        name: "Fu" and "Firmware" dropped, then CamelCase turned into kebab-case. */
    method AddFirmwareGtype(id: Option<string>, typeName: CString, gtype: nat)
      modifies this`emitted
      ensures id.Some? ==> emitted == old(emitted) + [FirmwareGtypeSignal(id.value, gtype)]
      ensures id.None? ==>
                var stem := FirmwareTypeStem(typeName);
                emitted == old(emitted) + [FirmwareGtypeSignal(UncamelcasePrefix(stem, |stem|), gtype)]
    {
      var safe: string;
      if id.Some? {
        safe := id.value;
      } else {
        safe := Uncamelcase(FirmwareTypeStem(typeName));
      }
      emitted := emitted + [FirmwareGtypeSignal(safe, gtype)];
    }

    // -------------------------------------------------------------------------
    // Udev subsystems

    /** `fu_plugin_set_udev_subsystems`: the list is replaced. */
    method SetUdevSubsystems(subsystems: seq<Option<string>>)
      modifies this`udevSubsystems
      ensures udevSubsystems == subsystems
    {
      udevSubsystems := subsystems;
    }

    /** `fu_plugin_add_udev_subsystem`: appended unless already present. */
    method AddUdevSubsystem(subsystem: Option<string>)
      modifies this`udevSubsystems
      ensures subsystem in udevSubsystems
      ensures subsystem in old(udevSubsystems) ==> udevSubsystems == old(udevSubsystems)
      ensures subsystem !in old(udevSubsystems) ==> udevSubsystems == old(udevSubsystems) + [subsystem]
      ensures NoDuplicates(old(udevSubsystems)) ==> NoDuplicates(udevSubsystems)
    {
      var i := 0;
      while i < |udevSubsystems|
        invariant 0 <= i <= |udevSubsystems|
        invariant subsystem !in udevSubsystems[..i]
      {
        if StrCmp0(udevSubsystems[i], subsystem) == 0 {
          return;
        }
        assert udevSubsystems[..i + 1] == udevSubsystems[..i] + [udevSubsystems[i]];
        i := i + 1;
      }
      assert udevSubsystems[..i] == udevSubsystems;
      udevSubsystems := udevSubsystems + [subsystem];
    }

    // -------------------------------------------------------------------------
    // Rules, order and priority, report metadata

    /** `fu_plugin_get_rules`: NULL for a rule kind never added to. */
    function GetRules(rule: PluginRule): (r: Option<seq<Option<string>>>)
      reads this
      ensures r.Some? <==> rule in rules
      ensures r.Some? ==> r.value == rules[rule]
    {
      if rule in rules then Some(rules[rule]) else None
    }

    /** `fu_plugin_add_rule`: appends the name (duplicates included) to that kind's list
        and emits rules-changed. */
    method AddRule(rule: PluginRule, name: Option<string>)
      modifies this`rules, this`emitted
      ensures GetRules(rule) == Some((if rule in old(rules) then old(rules)[rule] else []) + [name])
      ensures forall other :: other != rule ==> GetRules(other) == old(GetRules(other))
      ensures emitted == old(emitted) + [RulesChangedSignal]
    {
      var list := if rule in rules then rules[rule] else [];
      rules := rules[rule := list + [name]];
      emitted := emitted + [RulesChangedSignal];
    }

    /** `fu_plugin_has_rule`: whether `name` is in the list of that rule kind. */
    method HasRule(rule: PluginRule, name: Option<string>) returns (found: bool)
      ensures found <==> rule in rules && name in rules[rule]
    {
      if rule !in rules {
        return false;
      }
      var list := rules[rule];
      var i := 0;
      while i < |list|
        invariant 0 <= i <= |list|
        invariant name !in list[..i]
      {
        if StrCmp0(list[i], name) == 0 {
          return true;
        }
        assert list[..i + 1] == list[..i] + [list[i]];
        i := i + 1;
      }
      assert list[..i] == list;
      return false;
    }

    method SetOrder(o: uint32)
      modifies this`order
      ensures order == o
    {
      order := o;
    }

    method SetPriority(p: uint32)
      modifies this`priority
      ensures priority == p
    {
      priority := p;
    }

    /** `fu_plugin_add_report_metadata`: creates the table if needed and maps `key` to
        `value`, replacing what was there. */
    method AddReportMetadata(key: CString, value: CString)
      modifies this`reportMetadata
      ensures reportMetadata.Some? && key in reportMetadata.value && reportMetadata.value[key] == value
      ensures reportMetadata == Some((if old(reportMetadata).Some? then old(reportMetadata).value else map[])[key := value])
    {
      var table := if reportMetadata.Some? then reportMetadata.value else map[];
      reportMetadata := Some(table[key := value]);
    }
  }

  // ---------------------------------------------------------------------------
  // Sorting plugins

  /** `fu_plugin_order_compare`: the sign of the difference of the two orders. */
  function OrderCompare(p1: Plugin, p2: Plugin): (r: int)
    reads p1, p2
    ensures -1 <= r <= 1
    ensures r < 0 <==> p1.order < p2.order
    ensures r == 0 <==> p1.order == p2.order
    ensures r > 0 <==> p1.order > p2.order
  {
    if p1.order < p2.order then -1
    else if p1.order > p2.order then 1
    else 0
  }

  /** `fu_plugin_name_compare`: `g_strcmp0` of the two names, NULL first. */
  function NameCompare(p1: Plugin, p2: Plugin): (r: int)
    reads p1, p2
    ensures -1 <= r <= 1
    ensures r == 0 <==> p1.name == p2.name
  {
    StrCmp0(p1.name, p2.name)
  }

  /** The order comparison is a total preorder: antisymmetric and transitive. */
  lemma OrderCompareIsTotalPreorder(p1: Plugin, p2: Plugin, p3: Plugin)
    ensures OrderCompare(p1, p2) == -OrderCompare(p2, p1)
    ensures OrderCompare(p1, p2) <= 0 && OrderCompare(p2, p3) <= 0 ==> OrderCompare(p1, p3) <= 0
  {
  }
}
