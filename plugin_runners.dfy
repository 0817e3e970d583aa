/** The `fu_plugin_runner_*` family: how the plugin object calls the optional hooks
    exported by its loaded module, what it falls back to when a hook is missing, how
    hook errors are reported, and how the activate, unlock, update and verify runners
    change the device they were given. */
module PluginRunners {
  import opened GLib
  import opened FwupdEnums
  import opened PluginDevices

  /** The optional symbols a plugin module may export. */
  datatype HookName =
    | Init | Startup | Coldplug | Recoldplug | ColdplugPrepare | ColdplugCleanup
    | CompositePrepare | CompositeCleanup | UpdatePrepare | UpdateCleanup
    | UpdateAttach | UpdateDetach | Activate | Unlock | Update | Verify
    | ClearResults | GetResults
    | BackendDeviceAdded | BackendDeviceChanged | BackendDeviceRemoved
    | DeviceAdded | DeviceRegistered | DeviceCreated | AddSecurityAttrs

  /** The symbol looked up with `g_module_symbol`. */
  function SymbolName(h: HookName): (s: string)
    ensures |s| > 10 && s[..10] == "fu_plugin_"
  {
    "fu_plugin_" + HookSuffix(h)
  }

  /** The part of a hook's symbol after "fu_plugin_". */
  function HookSuffix(h: HookName): (s: string)
    ensures |s| > 0
  {
    match h
    case Init => "init"
    case Startup => "startup"
    case Coldplug => "coldplug"
    case Recoldplug => "recoldplug"
    case ColdplugPrepare => "coldplug_prepare"
    case ColdplugCleanup => "coldplug_cleanup"
    case CompositePrepare => "composite_prepare"
    case CompositeCleanup => "composite_cleanup"
    case UpdatePrepare => "update_prepare"
    case UpdateCleanup => "update_cleanup"
    case UpdateAttach => "update_attach"
    case UpdateDetach => "update_detach"
    case Activate => "activate"
    case Unlock => "unlock"
    case Update => "update"
    case Verify => "verify"
    case ClearResults => "clear_results"
    case GetResults => "get_results"
    case BackendDeviceAdded => "backend_device_added"
    case BackendDeviceChanged => "backend_device_changed"
    case BackendDeviceRemoved => "backend_device_removed"
    case DeviceAdded => "device_added"
    case DeviceRegistered => "device_registered"
    case DeviceCreated => "device_created"
    case AddSecurityAttrs => "add_security_attrs"
  }

  /** The text put in front of a hook's error. Most runners use "failed to <symbol
      without its fu_plugin_ prefix> using <plugin>: "; three spell it their own way. */
  function ErrorPrefix(h: HookName, name: Option<string>): string
  {
    match h
    case ClearResults => "failed to clear_result using " + Printable(name) + ": "
    case BackendDeviceAdded => "failed to add device using on " + Printable(name) + ": "
    case BackendDeviceChanged => "failed to change device on " + Printable(name) + ": "
    case _ => "failed to " + SymbolName(h)[10..] + " using " + Printable(name) + ": "
  }

  /** The generic prefix names the hook by its symbol with "fu_plugin_" cut off. */
  lemma ErrorPrefixNamesTheHook(h: HookName, name: Option<string>)
    requires h != ClearResults && h != BackendDeviceAdded && h != BackendDeviceChanged
    ensures ErrorPrefix(h, name) == "failed to " + HookSuffix(h) + " using " + Printable(name) + ": "
  {
    SymbolSuffix(h);
    assert ErrorPrefix(h, name) == "failed to " + SymbolName(h)[10..] + " using " + Printable(name) + ": ";
  }

  /** The verify runner's errors start with "failed to verify using <plugin>: ". */
  lemma VerifyErrorPrefix(name: Option<string>)
    ensures ErrorPrefix(Verify, name) == "failed to verify using " + Printable(name) + ": "
  {
    ErrorPrefixNamesTheHook(Verify, name);
  }

  /** Cutting the first ten characters off a symbol leaves the hook's suffix. */
  lemma SymbolSuffix(h: HookName)
    ensures SymbolName(h)[10..] == HookSuffix(h)
  {
    var p: string := "fu_plugin_";
    assert |p| == 10;
    assert (p + HookSuffix(h))[10..] == HookSuffix(h);
  }

  /** What one call of a hook returns: TRUE, or FALSE with or without an error set. */
  datatype HookResult = HookPass | HookFail(error: Option<Error>)

  /** A loaded module: the hooks it exports. A hook missing from the map is a symbol
      the module does not export. */
  type Module = map<HookName, HookResult>

  /** What a runner reads from the plugin object. */
  datatype Host = Host(flags: set<PluginFlag>, loaded: Option<Module>, name: Option<string>)
  {
    /** Runners do nothing for a disabled plugin or one with no module loaded. */
    predicate Active()
    {
      Disabled !in flags && loaded.Some?
    }

    predicate Exports(h: HookName)
    {
      loaded.Some? && h in loaded.value
    }
  }

  /** The error put in place of one a failing hook did not set. */
  const Unspecified: Error := Error(ErrorCode.Internal, "unspecified error")

  /** The error a failing hook reported, or the stand-in when it reported none. */
  function Reported(e: Option<Error>): Error
  {
    match e
    case Some(v) => v
    case None => Unspecified
  }

  predicate StartsWith(s: string, prefix: string)
  {
    |prefix| <= |s| && s[..|prefix|] == prefix
  }

  /** The dispatch rule shared by the runners: success without a call when the plugin
      is disabled or has no module; the fallback (or success when there is none) when
      the hook is not exported; the hook's own result otherwise, a failure always
      carrying an error whose message starts with the runner's prefix. */
  function Dispatch(host: Host, h: HookName, fallback: Option<Outcome>): (r: Outcome)
    ensures !host.Active() ==> r == Pass
    ensures host.Active() && !host.Exports(h) ==> r == (if fallback.Some? then fallback.value else Pass)
    ensures host.Active() && host.Exports(h) ==> (r.Fail? <==> host.loaded.value[h].HookFail?)
    ensures host.Active() && host.Exports(h) && r.Fail? ==>
              var e := Reported(host.loaded.value[h].error);
              && r.error.Some?
              && r.error.value.code == e.code
              && StartsWith(r.error.value.message, ErrorPrefix(h, host.name))
              && r.error.value.message[|ErrorPrefix(h, host.name)|..] == e.message
  {
    if !host.Active() then Pass
    else if h !in host.loaded.value then
      match fallback
      case Some(o) => o
      case None => Pass
    else
      match host.loaded.value[h]
      case HookPass => Pass
      case HookFail(e) => Fail(Some(PrefixError(ErrorPrefix(h, host.name), Reported(e))))
  }

  /** A failure a runner reports through the dispatch rule always sets the error, as
      long as the fallback it was given does. */
  lemma DispatchFailureCarriesError(host: Host, h: HookName, fallback: Option<Outcome>)
    requires fallback.Some? && fallback.value.Fail? ==> fallback.value.error.Some?
    ensures Dispatch(host, h, fallback).Fail? ==> Dispatch(host, h, fallback).error.Some?
  {
  }

  // ---------------------------------------------------------------------------
  // The device operations the runners fall back to

  /** The outcomes of the device-class operations the fallbacks call; each is foreign
      code, so only its result is modelled. `open` is the device locker opening the
      device, `probe` is `fu_device_probe`; `sha1` and `sha256` are the checksums of the image read back. */
  datatype DeviceOps = DeviceOps(
    open: Outcome,
    probe: Outcome,
    attach: Outcome,
    detach: Outcome,
    activate: Outcome,
    dumpFirmware: Outcome,
    saveBackup: Outcome,
    writeFirmware: Outcome,
    readFirmware: Outcome,
    packFirmware: Outcome,
    reload: Outcome,
    sha1: string,
    sha256: string)
  {
    /** Every failing operation sets its error. */
    predicate ReportsErrors()
    {
      && (open.Fail? ==> open.error.Some?)
      && (probe.Fail? ==> probe.error.Some?)
      && (attach.Fail? ==> attach.error.Some?)
      && (detach.Fail? ==> detach.error.Some?)
      && (activate.Fail? ==> activate.error.Some?)
      && (dumpFirmware.Fail? ==> dumpFirmware.error.Some?)
      && (saveBackup.Fail? ==> saveBackup.error.Some?)
      && (writeFirmware.Fail? ==> writeFirmware.error.Some?)
      && (readFirmware.Fail? ==> readFirmware.error.Some?)
      && (packFirmware.Fail? ==> packFirmware.error.Some?)
      && (reload.Fail? ==> reload.error.Some?)
    }
  }

  /** `g_prefix_error`: prefixes the error if one is set. */
  function PrefixFailure(prefix: string, o: Outcome): (r: Outcome)
    ensures o.Pass? || o.error.None? ==> r == o
    ensures o.Fail? && o.error.Some? ==>
              && r.Fail? && r.error.Some?
              && r.error.value.code == o.error.value.code
              && r.error.value.message == prefix + o.error.value.message
  {
    match o
    case Fail(Some(e)) => Fail(Some(PrefixError(prefix, e)))
    case _ => o
  }

  /** An operation run with the device held open by a locker: it succeeds exactly
      when the device opens and the operation succeeds, and an open failure is
      reported whatever the operation would have done. */
  function WithDeviceOpen(ops: DeviceOps, op: Outcome): (r: Outcome)
    ensures r.Pass? <==> ops.open.Pass? && op.Pass?
    ensures r.Fail? ==> r.error == (if ops.open.Fail? then ops.open.error else op.error)
  {
    if ops.open.Fail? then ops.open else op
  }

  /** `fu_plugin_device_write_firmware`: the old image is backed up first when the
      device asks for it, and a failed dump or save stops the write. The outcome is
      that of the first step that fails. */
  function DeviceWriteFirmware(d: Device, ops: DeviceOps): (r: Outcome)
    ensures r.Pass? <==>
              && ops.open.Pass?
              && (BackupBeforeInstall in d.flags ==> ops.dumpFirmware.Pass? && ops.saveBackup.Pass?)
              && ops.writeFirmware.Pass?
    ensures ops.open.Fail? ==> r == ops.open
    ensures ops.open.Pass? && BackupBeforeInstall in d.flags && ops.dumpFirmware.Fail? ==>
              r == PrefixFailure("failed to backup old firmware: ", ops.dumpFirmware)
    ensures ops.open.Pass? && BackupBeforeInstall in d.flags && ops.dumpFirmware.Pass? && ops.saveBackup.Fail? ==>
              r == ops.saveBackup
    ensures ops.open.Pass? && (BackupBeforeInstall in d.flags ==> ops.dumpFirmware.Pass? && ops.saveBackup.Pass?) ==>
              r == ops.writeFirmware
  {
    if ops.open.Fail? then ops.open
    else if BackupBeforeInstall in d.flags && ops.dumpFirmware.Fail? then
      PrefixFailure("failed to backup old firmware: ", ops.dumpFirmware)
    else if BackupBeforeInstall in d.flags && ops.saveBackup.Fail? then ops.saveBackup
    else ops.writeFirmware
  }

  /** `fu_plugin_device_read_firmware`: detach, read the image back, record its SHA1
      and SHA256 checksums, attach. Only a read that gets as far as packing the image
      adds the checksums; after a failed read or pack the attach is still tried, but
      its failure is ignored. */
  function DeviceReadFirmware(d: Device, ops: DeviceOps): (r: (Outcome, Device))
    ensures ops.open.Pass? && ops.detach.Pass? && ops.readFirmware.Pass? && ops.packFirmware.Pass? ==>
              r == (ops.attach, d.(checksums := d.checksums + [ops.sha1, ops.sha256]))
    ensures !(ops.open.Pass? && ops.detach.Pass? && ops.readFirmware.Pass? && ops.packFirmware.Pass?) ==>
              r.1 == d
    ensures r.0.Pass? <==> ops.open.Pass? && ops.detach.Pass? && ops.readFirmware.Pass?
                           && ops.packFirmware.Pass? && ops.attach.Pass?
    ensures ops.open.Fail? ==> r.0 == ops.open
    ensures ops.open.Pass? && ops.detach.Fail? ==> r.0 == ops.detach
    ensures ops.open.Pass? && ops.detach.Pass? && ops.readFirmware.Fail? ==>
              r.0 == PrefixFailure("failed to read firmware: ", ops.readFirmware)
    ensures ops.open.Pass? && ops.detach.Pass? && ops.readFirmware.Pass? && ops.packFirmware.Fail? ==>
              r.0 == PrefixFailure("failed to write firmware: ", ops.packFirmware)
  {
    if ops.open.Fail? then (ops.open, d)
    else if ops.detach.Fail? then (ops.detach, d)
    else if ops.readFirmware.Fail? then (PrefixFailure("failed to read firmware: ", ops.readFirmware), d)
    else if ops.packFirmware.Fail? then (PrefixFailure("failed to write firmware: ", ops.packFirmware), d)
    else (ops.attach, d.(checksums := d.checksums + [ops.sha1, ops.sha256]))
  }

  /** Writing and reading back the firmware never fail silently when the device
      operations they call set their errors. */
  lemma DeviceFirmwareFailuresCarryErrors(d: Device, ops: DeviceOps)
    requires ops.ReportsErrors()
    ensures DeviceWriteFirmware(d, ops).Fail? ==> DeviceWriteFirmware(d, ops).error.Some?
    ensures DeviceReadFirmware(d, ops).0.Fail? ==> DeviceReadFirmware(d, ops).0.error.Some?
  {
  }

  /** The fallback each device runner uses when its hook is not exported: only
      attach, detach and activate have one, and it needs the device to open. */
  function Fallback(h: HookName, ops: DeviceOps): (r: Option<Outcome>)
    ensures r.Some? <==> h == UpdateAttach || h == UpdateDetach || h == Activate
    ensures h == UpdateAttach ==> (r.value.Pass? <==> ops.open.Pass? && ops.attach.Pass?)
    ensures h == UpdateDetach ==> (r.value.Pass? <==> ops.open.Pass? && ops.detach.Pass?)
    ensures h == Activate ==> (r.value.Pass? <==> ops.open.Pass? && ops.activate.Pass?)
    ensures r.Some? && ops.open.Fail? ==> r.value == ops.open
  {
    match h
    case UpdateAttach => Some(WithDeviceOpen(ops, ops.attach))
    case UpdateDetach => Some(WithDeviceOpen(ops, ops.detach))
    case Activate => Some(WithDeviceOpen(ops, ops.activate))
    case _ => None
  }

  /** A device runner never fails without an error when the device operations its
      fallback calls set theirs. */
  lemma DeviceRunnerFailureCarriesError(host: Host, h: HookName, ops: DeviceOps)
    requires ops.ReportsErrors()
    ensures Dispatch(host, h, Fallback(h, ops)).Fail? ==> Dispatch(host, h, Fallback(h, ops)).error.Some?
  {
    DispatchFailureCarriesError(host, h, Fallback(h, ops));
  }

  // ---------------------------------------------------------------------------
  // fu_plugin_runner_activate and fu_plugin_runner_unlock

  /** The flags of an activated device: NEEDS_ACTIVATION dropped, and a hidden
      updatable device made updatable again. */
  function ActivatedFlags(f: set<DeviceFlag>): (g: set<DeviceFlag>)
    ensures NeedsActivation !in g
    ensures UpdatableHidden !in g
    ensures Updatable in g <==> Updatable in f || UpdatableHidden in f
    ensures g - {Updatable} == f - {NeedsActivation, UpdatableHidden, Updatable}
  {
    if UpdatableHidden in f then f - {NeedsActivation, UpdatableHidden} + {Updatable}
    else f - {NeedsActivation}
  }

  /** `fu_plugin_runner_activate`: refuses a device that does not need activation,
      runs the activate hook (or the device's own activate), and on success updates
      the flags and the modification time. */
  function RunActivate(host: Host, d: Device, ops: DeviceOps, now: nat): (r: (Outcome, Device))
    ensures NeedsActivation !in d.flags ==>
              r == (Fail(Some(Error(NotSupported, "Device " + Printable(d.id) + " does not need activation"))), d)
    ensures r.0.Fail? ==> r.1 == d
    ensures r.0.Pass? ==> r.1 == d.(flags := ActivatedFlags(d.flags), modified := now)
    ensures NeedsActivation in d.flags ==> r.0 == Dispatch(host, Activate, Fallback(Activate, ops))
  {
    if NeedsActivation !in d.flags then
      (Fail(Some(Error(NotSupported, "Device " + Printable(d.id) + " does not need activation"))), d)
    else
      var o := Dispatch(host, Activate, Fallback(Activate, ops));
      if o.Fail? then (o, d)
      else (Pass, d.(flags := ActivatedFlags(d.flags), modified := now))
  }

  /** The dispatch rule makes a disabled plugin's activate succeed without calling
      anything, so the device is still marked as activated. */
  lemma DisabledPluginStillActivates(host: Host, d: Device, ops: DeviceOps, now: nat)
    requires Disabled in host.flags
    requires NeedsActivation in d.flags
    ensures RunActivate(host, d, ops, now).0 == Pass
    ensures NeedsActivation !in RunActivate(host, d, ops, now).1.flags
  {
  }

  /** `fu_plugin_runner_unlock`: refuses a device that is not locked, runs the unlock
      hook (no fallback) and on success clears LOCKED and sets the modification time. */
  function RunUnlock(host: Host, d: Device, now: nat): (r: (Outcome, Device))
    ensures Locked !in d.flags ==>
              r == (Fail(Some(Error(NotSupported, "Device " + Printable(d.id) + " is not locked"))), d)
    ensures r.0.Fail? ==> r.1 == d
    ensures r.0.Pass? ==> r.1 == d.(flags := d.flags - {Locked}, modified := now)
    ensures Locked in d.flags ==> r.0 == Dispatch(host, Unlock, None)
  {
    if Locked !in d.flags then
      (Fail(Some(Error(NotSupported, "Device " + Printable(d.id) + " is not locked"))), d)
    else
      var o := Dispatch(host, Unlock, None);
      if o.Fail? then (o, d)
      else (Pass, d.(flags := d.flags - {Locked}, modified := now))
  }

  // ---------------------------------------------------------------------------
  // fu_plugin_runner_update

  /** After a successful update the verification checksums are stale, unless the new
      image only takes effect after a reboot or shutdown. */
  function AfterUpdate(d: Device): (e: Device)
    ensures e.flags == d.flags && e.updateError == d.updateError
    ensures NeedsReboot in d.flags || NeedsShutdown in d.flags ==> e == d
    ensures NeedsReboot !in d.flags && NeedsShutdown !in d.flags ==> e == d.(checksums := [])
  {
    if NeedsReboot !in d.flags && NeedsShutdown !in d.flags then d.(checksums := []) else d
  }

  /** `fu_plugin_runner_update` as written: when the update hook fails without setting
      an error, it returns FALSE before the stand-in error is propagated, so the caller
      gets a failure with no error and the device gets no update error. */
  function RunUpdateAsWritten(host: Host, d: Device, ops: DeviceOps): (r: (Outcome, Device))
    ensures host.Active() && host.Exports(Update) ==> (r.0.Fail? <==> host.loaded.value[Update].HookFail?)
    ensures host.Active() && host.Exports(Update) && r.0.Fail? ==>
              && (r.0.error.Some? <==> host.loaded.value[Update].error.Some?)
              && (host.loaded.value[Update].error.None? ==> r.1 == d)
              && (host.loaded.value[Update].error.Some? ==>
                    r.1 == d.(updateError := Some(host.loaded.value[Update].error.value.message)))
  {
    if !host.Active() then (Pass, d)
    else if Update !in host.loaded.value then (DeviceWriteFirmware(d, ops), d)
    else
      match host.loaded.value[Update]
      case HookPass => (Pass, AfterUpdate(d))
      case HookFail(None) => (Fail(None), d)
      case HookFail(Some(e)) => (Fail(Some(e)), d.(updateError := Some(e.message)))
  }

  /** `fu_plugin_runner_update` as intended: a hook failure is recorded as the device's
      update error and propagated unprefixed, the stand-in error when the hook set none. */
  function RunUpdate(host: Host, d: Device, ops: DeviceOps): (r: (Outcome, Device))
    ensures !host.Active() ==> r == (Pass, d)
    ensures host.Active() && !host.Exports(Update) ==> r == (DeviceWriteFirmware(d, ops), d)
    ensures host.Active() && host.Exports(Update) ==> (r.0.Fail? <==> host.loaded.value[Update].HookFail?)
    ensures host.Active() && host.Exports(Update) && r.0.Pass? ==> r.1 == AfterUpdate(d)
    ensures host.Active() && host.Exports(Update) && r.0.Fail? ==>
              && host.loaded.value[Update].HookFail?
              && r.0 == Fail(Some(Reported(host.loaded.value[Update].error)))
              && r.1 == d.(updateError := Some(r.0.error.value.message))
  {
    if !host.Active() then (Pass, d)
    else if Update !in host.loaded.value then (DeviceWriteFirmware(d, ops), d)
    else
      match host.loaded.value[Update]
      case HookPass => (Pass, AfterUpdate(d))
      case HookFail(e) => (Fail(Some(Reported(e))), d.(updateError := Some(Reported(e).message)))
  }

  /** With device operations that set their errors, an update never fails silently. */
  lemma UpdateFailureCarriesError(host: Host, d: Device, ops: DeviceOps)
    requires ops.ReportsErrors()
    ensures RunUpdate(host, d, ops).0.Fail? ==> RunUpdate(host, d, ops).0.error.Some?
  {
  }

  /** The two definitions agree except when the hook fails without an error. */
  lemma UpdateAsWrittenDiffersOnlyOnUnsetError(host: Host, d: Device, ops: DeviceOps)
    requires !(host.Active() && host.Exports(Update) && host.loaded.value[Update] == HookFail(None))
    ensures RunUpdateAsWritten(host, d, ops) == RunUpdate(host, d, ops)
  {
  }

  /** The input that shows the difference: an update hook returning FALSE without an
      error makes the runner fail silently and leave the update error unset. */
  lemma UpdateAsWrittenFailsSilently(d: Device, ops: DeviceOps)
    requires d.updateError.None?
    ensures var host := Host({}, Some(map[Update := HookFail(None)]), Some("dfu"));
            && RunUpdateAsWritten(host, d, ops) == (Fail(None), d)
            && RunUpdate(host, d, ops).0 == Fail(Some(Unspecified))
            && RunUpdate(host, d, ops).1.updateError == Some("unspecified error")
  {
    var host := Host({}, Some(map[Update := HookFail(None)]), Some("dfu"));
    assert host.Active() && host.loaded.value[Update] == HookFail(None);
  }

  // ---------------------------------------------------------------------------
  // fu_plugin_runner_verify

  /** `fu_plugin_runner_verify`. Without a verify hook the image is read back, if the
      device supports it. With one, the old checksums are dropped, the device is
      detached, verified and attached again; a verify failure is reported, prefixed,
      even if the re-attach fails too. */
  function RunVerify(host: Host, d: Device, ops: DeviceOps): (r: (Outcome, Device))
    ensures !host.Active() ==> r == (Pass, d)
    ensures host.Active() && !host.Exports(Verify) && CanVerify !in d.flags ==>
              r == (Fail(Some(Error(NotSupported, "device " + Printable(d.id) + " does not support verification"))), d)
    ensures host.Active() && !host.Exports(Verify) && CanVerify in d.flags ==> r == DeviceReadFirmware(d, ops)
    ensures host.Active() && host.Exports(Verify) ==> r.1 == d.(checksums := [])
    ensures host.Active() && host.Exports(Verify) ==>
              var detach := Dispatch(host, UpdateDetach, Fallback(UpdateDetach, ops));
              var attach := Dispatch(host, UpdateAttach, Fallback(UpdateAttach, ops));
              && (r.0.Pass? <==> detach.Pass? && host.loaded.value[Verify].HookPass? && attach.Pass?)
              && (detach.Fail? ==> r.0 == detach)
              && (detach.Pass? && host.loaded.value[Verify].HookFail? ==> r.0 == Dispatch(host, Verify, None))
              && (detach.Pass? && host.loaded.value[Verify].HookPass? ==> r.0 == attach)
  {
    if !host.Active() then (Pass, d)
    else if Verify !in host.loaded.value then
      if CanVerify !in d.flags then
        (Fail(Some(Error(NotSupported, "device " + Printable(d.id) + " does not support verification"))), d)
      else DeviceReadFirmware(d, ops)
    else
      var cleared := d.(checksums := []);
      var detach := Dispatch(host, UpdateDetach, Fallback(UpdateDetach, ops));
      if detach.Fail? then (detach, cleared)
      else
        var verify := Dispatch(host, Verify, None);
        if verify.Fail? then (verify, cleared)
        else (Dispatch(host, UpdateAttach, Fallback(UpdateAttach, ops)), cleared)
  }

  /** A failing verify hook gives the error "failed to verify using <plugin>: "
      followed by its own message (or the stand-in), with its code, whatever the
      re-attach does. */
  lemma VerifyFailureIsPrefixed(host: Host, d: Device, ops: DeviceOps)
    requires host.Active() && host.Exports(Verify) && host.loaded.value[Verify].HookFail?
    requires Dispatch(host, UpdateDetach, Fallback(UpdateDetach, ops)).Pass?
    ensures var r := RunVerify(host, d, ops).0;
            var e := Reported(host.loaded.value[Verify].error);
            && r.Fail? && r.error.Some?
            && r.error.value == Error(e.code, "failed to verify using " + Printable(host.name) + ": " + e.message)
  {
    VerifyErrorPrefix(host.name);
    var r := RunVerify(host, d, ops).0;
    var p := ErrorPrefix(Verify, host.name);
    assert r.error.value.message == p + r.error.value.message[|p|..];
  }

  // ---------------------------------------------------------------------------
  // The remaining runners

  /** `fu_plugin_runner_update_reload`: checks only that the plugin is enabled, then
      reloads the device with it held open; a missing module does not skip it. */
  function RunUpdateReload(host: Host, ops: DeviceOps): (r: Outcome)
    ensures r.Pass? <==> Disabled in host.flags || (ops.open.Pass? && ops.reload.Pass?)
    ensures r.Fail? ==> r.error == (if ops.open.Fail? then ops.open.error else ops.reload.error)
  {
    if Disabled in host.flags then Pass else WithDeviceOpen(ops, ops.reload)
  }

  /** Unlike the dispatch rule, the reload runner does not depend on the module: a
      plugin with no module loaded still reloads, and reports a device that will not
      open, where an attach through the dispatch rule succeeds without a call. */
  lemma UpdateReloadIgnoresModule(host: Host, m: Option<Module>, ops: DeviceOps)
    ensures RunUpdateReload(host.(loaded := m), ops) == RunUpdateReload(host, ops)
    ensures Disabled !in host.flags && host.loaded.None? && ops.open.Fail? ==>
              && RunUpdateReload(host, ops).Fail?
              && Dispatch(host, UpdateAttach, Fallback(UpdateAttach, ops)) == Pass
  {
  }

  /** `fu_plugin_runner_device_created`: the hook's result is passed on as it is,
      without a prefix and without a stand-in error. */
  function RunDeviceCreated(host: Host): (r: Outcome)
    ensures r.Pass? <==> !host.Active() || !host.Exports(DeviceCreated) || host.loaded.value[DeviceCreated].HookPass?
    ensures r.Fail? ==> r == Fail(host.loaded.value[DeviceCreated].error)
  {
    if !host.Active() || DeviceCreated !in host.loaded.value then Pass
    else
      match host.loaded.value[DeviceCreated]
      case HookPass => Pass
      case HookFail(e) => Fail(e)
  }

  /** The error of `fu_plugin_runner_backend_device_added` when the plugin has
      neither the hook nor a device type to create. */
  const NoDeviceGType: Error := Error(ErrorCode.Internal, "No device GType set")

  /** What `fu_plugin_runner_backend_device_added` does with a new backend device:
      its outcome, and whether the plugin's own device creation gets as far as adding
      the device (`fu_plugin_device_add`) and running the device-added notifier.
      `deviceTypeKnown` says whether the plugin or the device names a GType to create;
      `onlySupported` is the ONLY_SUPPORTED internal flag of the created device and
      `supported` whether the plugin has updates for it. */
  function BackendDeviceAddedPlan(host: Host, ops: DeviceOps, deviceTypeKnown: bool,
                                  onlySupported: bool, supported: bool): (r: (Outcome, bool))
    ensures !host.Active() ==> r == (Pass, false)
    ensures host.Exports(BackendDeviceAdded) ==> r == (Dispatch(host, BackendDeviceAdded, None), false)
    ensures host.Active() && !host.Exports(BackendDeviceAdded) && !deviceTypeKnown ==>
              r == (Fail(Some(NoDeviceGType)), false)
    ensures r.1 <==>
              && host.Active() && !host.Exports(BackendDeviceAdded) && deviceTypeKnown
              && RunDeviceCreated(host).Pass?
              && (onlySupported ==> ops.probe.Pass? && supported)
              && ops.open.Pass?
    ensures r.1 ==> r.0 == Pass
    ensures host.Active() && !host.Exports(BackendDeviceAdded) && deviceTypeKnown && !r.1 ==>
              r.0 == (if RunDeviceCreated(host).Fail? then RunDeviceCreated(host)
                      else if onlySupported && ops.probe.Fail? then ops.probe
                      else if onlySupported && !supported then Pass
                      else ops.open)
  {
    if !host.Active() then (Pass, false)
    else if BackendDeviceAdded in host.loaded.value then (Dispatch(host, BackendDeviceAdded, None), false)
    else if !deviceTypeKnown then (Fail(Some(NoDeviceGType)), false)
    else if RunDeviceCreated(host).Fail? then (RunDeviceCreated(host), false)
    else if onlySupported && ops.probe.Fail? then (ops.probe, false)
    else if onlySupported && !supported then (Pass, false)
    else if ops.open.Fail? then (ops.open, false)
    else (Pass, true)
  }

  /** Whether a notifier runner, one that returns nothing, calls its hook:
      `fu_plugin_runner_add_security_attrs` only needs the module to export it,
      device-added and device-registered also need the plugin to be enabled. */
  predicate NotifierCalls(host: Host, h: HookName)
  {
    if h == AddSecurityAttrs then host.Exports(h) else host.Active() && host.Exports(h)
  }

  /** Disabling a plugin silences every notifier except the security-attribute one,
      which is called exactly as for the enabled plugin; without a module no
      notifier is called. */
  lemma OnlySecurityAttrsIgnoreDisabled(host: Host, h: HookName)
    ensures h == AddSecurityAttrs ==>
              (NotifierCalls(host.(flags := host.flags + {Disabled}), h) <==>
               NotifierCalls(host.(flags := host.flags - {Disabled}), h))
    ensures h != AddSecurityAttrs ==> !NotifierCalls(host.(flags := host.flags + {Disabled}), h)
    ensures host.loaded.None? ==> !NotifierCalls(host, h)
  {
  }
}
