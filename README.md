# fwupd plugin object and EFI GUID names, in Dafny

This project models two files of fwupd's plugin library.

- `libfwupdplugin/fu-plugin.c` holds the `FuPlugin` object the daemon keeps for each plugin. The object records:
  - its flags, order and priority;
  - the devices it added;
  - its udev subsystems and its rules against other plugins;
  - an object cache, report metadata, a build hash and a one-shot private data block.

  It runs the optional hooks (`fu_plugin_*` symbols) that the plugin's shared object exports.
- `libfwupdplugin/fu-efi-common.c` turns the known EFI firmware-volume and firmware-file GUIDs into their names.

The modules follow the C code:

| module | file | what it holds |
|---|---|---|
| `GLib` | `glib.dfy` | `Option`, `GError` as `Error`/`Outcome`, NUL-free C strings, `guint`, `g_strcmp0`, `g_prefix_error`, `%s` of a NULL string |
| `FwupdEnums` | `fwupd_enums.dfy` | the plugin flags, device flags and rule kinds the plugin code uses |
| `EfiCommon` | `efi_common.dfy` | `fu_efi_guid_to_name` and a reference table lookup it is proved equal to |
| `PluginHelpers` | `plugin_helpers.dfy` | the stateless helpers: guessing a plugin's name, the device update error, the coldplug clamp, uncamelcase |
| `PluginDevices` | `plugin_devices.dfy` | devices as values, what `fu_plugin_device_add` does to a device tree, and array removal |
| `PluginRunners` | `plugin_runners.dfy` | the dispatch rule shared by the `fu_plugin_runner_*` functions, and the runners that change the device |
| `Plugin` | `plugin.dfy` | the `FuPlugin` object as a class whose methods update its fields and record the signals emitted |

How the model is set up:

- State that `fu-plugin.c` updates in place is a `class Plugin` with one field per private field. The fields are `devices`, `udevSubsystems`, `rules`, `cache`, `reportMetadata`, `data`, `flags`, `buildHash`, `order` and `priority`.
- Signals are appended to an `emitted` list.
- Each method states its new state. Where a method has a loop (`AddUdevSubsystem`, `HasRule`, `DeviceAddChildren`, `Uncamelcase`), the loop carries invariants and is proved against a specification function.
- A loaded module is a map from hook name to what that hook returns. A hook missing from the map is a symbol the module does not export.
- The device-class operations the runners fall back to are given as outcomes (`DeviceOps`).
- The ten GUID constants live in a header that is not part of this model. They are the fields of a `KnownGuids` record. Lemmas that need the constants to be pairwise distinct, or written in lowercase, say so in their `requires`.

## Model

| member | source | states |
|---|---|---|
| EfiCommon.GuidToNameIsTableLookup | libfwupdplugin/fu-efi-common.c:23-47 | For every input, the if-chain returns the name paired with the first of the ten constants equal to the GUID. It returns NULL for a NULL GUID and for a GUID equal to none of them. |
| EfiCommon.GuidToName | libfwupdplugin/fu-efi-common.c:23-47 | A NULL GUID gives NULL, and any name returned is one of the ten names of the table. |
| EfiCommon.KnownGuidsMapToTheirNames | libfwupdplugin/fu-efi-common.c:26-45 | With pairwise-distinct constants, each known GUID maps to its own name. |
| EfiCommon.FvImageAndFfs2Names | libfwupdplugin/fu-efi-common.c:26-45 | The FV_IMAGE GUID gives "File:FvImage" and the FFS2 GUID gives "Volume:Ffs2". |
| EfiCommon.UnknownGuidsYieldNull | libfwupdplugin/fu-efi-common.c:24-46 | The result is NULL exactly when the GUID is NULL or equals none of the ten constants. |
| EfiCommon.NamesAreVolumeOrFile | libfwupdplugin/fu-efi-common.c:27-45 | Every non-NULL result starts with "Volume:" or "File:". |
| EfiCommon.NameDeterminesGuid | libfwupdplugin/fu-efi-common.c:26-45 | Two inputs with the same non-NULL name are the same GUID, so a name identifies its GUID. |
| EfiCommon.UppercaseGuidIsUnknown | libfwupdplugin/fu-efi-common.c:14-26 | Matching is exact and case-sensitive. With lowercase constants, a known GUID containing a hex letter, written in uppercase, yields NULL. |
| PluginHelpers.FindFrom | libfwupdplugin/fu-plugin.c:366 | `g_strstr_len` returns the first index at or after the start where the pattern occurs. It returns none when the pattern does not occur there. |
| PluginHelpers.CutAtDot | libfwupdplugin/fu-plugin.c:370 | `g_strdelimit` followed by reading a C string gives the longest prefix without a '.'. The character after that prefix, if any, is '.'. |
| PluginHelpers.GuessNameFromFn | libfwupdplugin/fu-plugin.c:361-372 | NULL exactly when "libfu_plugin_" does not occur. Otherwise the result is the text after the first occurrence, up to the first '.' or the end. It never contains a '.'. |
| PluginHelpers.GuessNameOfPluginFile | libfwupdplugin/fu-plugin.c:361-372 | A file named "<dir>libfu_plugin_<name><.ext>" gives back `name`, for any directory in which "libfu_plugin_" does not start before the directory ends. |
| PluginHelpers.UnderscoreFreeDirectory | libfwupdplugin/fu-plugin.c:366 | In a directory without '_', the first occurrence of "libfu_plugin_" cannot start inside the directory. |
| PluginHelpers.BuildDeviceUpdateError | libfwupdplugin/fu-plugin.c:425-443 | NULL exactly when none of the seven flags is set. NO_HARDWARE, when set, wins over every other flag. |
| PluginHelpers.BuildDeviceUpdateErrorFollowsPriority | libfwupdplugin/fu-plugin.c:425-443 | The message is that of the first flag set, in the order NO_HARDWARE, LEGACY_BIOS, CAPSULES_UNSUPPORTED, UNLOCK_REQUIRED, EFIVAR_NOT_MOUNTED, ESP_NOT_FOUND, DISABLED. The result is NULL exactly when none of these flags is set. |
| PluginHelpers.ClampColdplugDelay | libfwupdplugin/fu-plugin.c:1050-1055 | The delay requested is min(duration, 3000): never above 3000 or above the duration, and equal to one of them. |
| PluginHelpers.Uncamelcase | libfwupdplugin/fu-plugin.c:1761-1775 | The loop builds the per-character rewrite of the whole string. Its length is the input length plus one '-' for each rewritten character after index 0. |
| PluginHelpers.UncamelcaseHasNoUppercase | libfwupdplugin/fu-plugin.c:1764-1773 | The output contains no ASCII uppercase letter. |
| PluginHelpers.UncamelcaseKeepsLowercase | libfwupdplugin/fu-plugin.c:1765-1768 | A string of lowercase letters and digits comes back unchanged. |
| PluginHelpers.UncamelcaseLength | libfwupdplugin/fu-plugin.c:1764-1773 | The output is as long as the input plus one '-' for each rewritten character after index 0. |
| PluginHelpers.UncamelcasePlacesCharacter | libfwupdplugin/fu-plugin.c:1764-1773 | Where each character lands in the output. The input character at index i appears at index i plus the number of dashes inserted up to and including it. It is copied when it is a lowercase letter or digit, and lowercased otherwise. A rewritten character after index 0 has a '-' right before it. |
| PluginHelpers.RemoveAll | libfwupdplugin/fu-plugin.c:1823 | Removing "Firmware" from a type name never makes it longer and adds no character. |
| PluginHelpers.FirmwareTypeStem | libfwupdplugin/fu-plugin.c:1820-1823 | Dropping a leading "Fu" and every "Firmware" never makes the type name longer and adds no character. |
| PluginDevices.Adopt | libfwupdplugin/fu-plugin.c:489-508 | A recorded device loses UPDATABLE when the plugin has CLEAR_UPDATABLE and keeps its other flags. It gets the plugin's update error when the plugin has USER_WARNING and the device has none, and it gets the creation time and owning plugin. Its ID, children and checksums are kept. |
| PluginDevices.AddTree | libfwupdplugin/fu-plugin.c:469-518 | A device whose ID cannot be settled is left alone and nothing is recorded. Otherwise the device itself is recorded first, as `Adopt` leaves it, and it keeps its number of children. Its children not created yet are added in turn; see `UncreatedChildIsAdded`. |
| PluginDevices.AddChildren | libfwupdplugin/fu-plugin.c:511-517 | Adding the children keeps their number. Which children are added and which are kept is stated by `UncreatedChildIsAdded` and `CreatedChildrenAreKept`. |
| PluginDevices.AddTreeStampsAll | libfwupdplugin/fu-plugin.c:469-518 | Every device an add records has the creation time and the plugin name. It has no UPDATABLE under CLEAR_UPDATABLE. Under USER_WARNING it has an update error whenever the plugin has one to give. |
| PluginDevices.AddChildStampsAll | libfwupdplugin/fu-plugin.c:514-516 | The same for one child. |
| PluginDevices.AddChildrenStampsAll | libfwupdplugin/fu-plugin.c:511-517 | The same for a list of children. |
| PluginDevices.AddTreeBounded | libfwupdplugin/fu-plugin.c:469-518 | An add records at most as many devices as the tree holds. |
| PluginDevices.AddChildBounded | libfwupdplugin/fu-plugin.c:514-516 | The same for one child. |
| PluginDevices.AddChildrenBounded | libfwupdplugin/fu-plugin.c:511-517 | The same for a list of children. |
| PluginDevices.CreatedChildrenAreKept | libfwupdplugin/fu-plugin.c:513-517 | A child whose creation time is not 0 comes out of the loop unchanged. |
| PluginDevices.CreatedChildrenAddNothing | libfwupdplugin/fu-plugin.c:511-517 | When every child was created already, the loop records no device and leaves every child as it was. |
| PluginDevices.UncreatedChildIsAdded | libfwupdplugin/fu-plugin.c:511-517 | A child whose creation time is 0 comes out of the loop as `AddTree` leaves it. When its ID can be settled, that device is among the devices recorded. |
| PluginDevices.RemoveFirst | libfwupdplugin/fu-plugin.c:592-593 | `g_ptr_array_remove` leaves the array unchanged when the device is absent. Otherwise the array is one shorter. |
| PluginDevices.RemoveFirstIsOneCopyLess | libfwupdplugin/fu-plugin.c:592-593 | Removal takes out exactly one copy of the device, as multisets. |
| PluginDevices.RemoveFirstSplits | libfwupdplugin/fu-plugin.c:592-593 | Removal keeps the elements before and after the first copy, in order. |
| PluginRunners.Dispatch | libfwupdplugin/fu-plugin.c:1216-1260 | A disabled plugin, or one with no module, succeeds without a call. A missing hook runs the fallback, or succeeds when there is none. The outcome is a failure exactly when the hook fails. A failure always carries an error with the hook's error code, whose message is the runner's prefix followed by the hook's message, or "unspecified error" when the hook set none. |
| PluginRunners.DispatchFailureCarriesError | libfwupdplugin/fu-plugin.c:1244-1257 | A runner that uses the dispatch rule never fails without an error, as long as its fallback does not. |
| PluginRunners.ErrorPrefixNamesTheHook | libfwupdplugin/fu-plugin.c:1254-1256 | The generic prefix names the hook by its symbol without "fu_plugin_": "failed to <hook> using <plugin>: ", so verify failures start with "failed to verify using <plugin>: ". |
| PluginRunners.PrefixFailure | libfwupdplugin/fu-plugin.c:1108-1111 | `g_prefix_error` leaves a success, or a failure with no error, as it is. A set error keeps its code and gets the prefix in front of its message. |
| PluginRunners.WithDeviceOpen | libfwupdplugin/fu-plugin.c:1061-1089 | An operation run under the device locker succeeds exactly when the device opens and the operation succeeds. On failure the error is the open's if the open failed, and the operation's otherwise. |
| PluginRunners.DeviceWriteFirmware | libfwupdplugin/fu-plugin.c:1091-1127 | A write succeeds exactly when the device opens, the write succeeds, and, with BACKUP_BEFORE_INSTALL, the dump and the backup save succeed. Otherwise the outcome is that of the first failing step: the open, the dump prefixed with "failed to backup old firmware: ", the save, or the write. |
| PluginRunners.DeviceReadFirmware | libfwupdplugin/fu-plugin.c:1129-1166 | When open, detach, read and pack succeed, the SHA1 and SHA256 checksums are appended and the outcome is the attach's. Otherwise the device is unchanged and the outcome is that of the first failing step, the read and pack errors prefixed; a failed attach after them is ignored. Success needs all five steps. |
| PluginRunners.DeviceFirmwareFailuresCarryErrors | libfwupdplugin/fu-plugin.c:1091-1166 | With device operations that set their errors, a failed write or read-back always carries an error. |
| PluginRunners.Fallback | libfwupdplugin/fu-plugin.c:1061-1089 | Only the attach, detach and activate runners fall back to the device. Each fallback succeeds exactly when the device opens and the device operation succeeds, and a failed open is reported as such. |
| PluginRunners.DeviceRunnerFailureCarriesError | libfwupdplugin/fu-plugin.c:1216-1260 | A device runner with its fallback never fails without an error when the device operations set theirs. |
| PluginRunners.ActivatedFlags | libfwupdplugin/fu-plugin.c:2249-2256 | NEEDS_ACTIVATION is cleared. UPDATABLE_HIDDEN is replaced by UPDATABLE. Other flags are kept. |
| PluginRunners.RunActivate | libfwupdplugin/fu-plugin.c:2222-2259 | A device without NEEDS_ACTIVATION is refused with NOT_SUPPORTED and left unchanged. Otherwise the outcome is that of the dispatch rule with the device's activate as fallback. On success the device gets the activated flags and the modification time; on failure it is unchanged. |
| PluginRunners.DisabledPluginStillActivates | libfwupdplugin/fu-plugin.c:2222-2259 | For a disabled plugin the dispatch succeeds without a call, so the device is still marked activated. |
| PluginRunners.RunUnlock | libfwupdplugin/fu-plugin.c:2273-2304 | A device without LOCKED is refused with NOT_SUPPORTED. Otherwise the unlock hook runs, with no fallback. On success LOCKED is cleared and the modification time set; on failure the device is unchanged. |
| PluginRunners.AfterUpdate | libfwupdplugin/fu-plugin.c:2370-2375 | A successful update clears the checksums unless the device needs a reboot or shutdown. Flags and update error are kept. |
| PluginRunners.RunUpdate | libfwupdplugin/fu-plugin.c:2320-2379 | Disabled or unloaded plugins succeed. Without an update hook, the firmware is written through the device. With one, the update fails exactly when the hook fails. The failure is propagated unprefixed, with the stand-in error when the hook set none, and its message becomes the device's update error. On success the checksums are cleared as `AfterUpdate` says. This is the corrected behaviour; see Findings. |
| PluginRunners.RunUpdateAsWritten | libfwupdplugin/fu-plugin.c:2320-2379 | The code as written: the update fails exactly when the hook fails, but the failure carries an error, and the device an update error, only when the hook set one. |
| PluginRunners.UpdateFailureCarriesError | libfwupdplugin/fu-plugin.c:2355-2367 | With device operations that set their errors, a failed update always carries an error. |
| PluginRunners.UpdateAsWrittenDiffersOnlyOnUnsetError | libfwupdplugin/fu-plugin.c:2355-2367 | The code as written and the corrected runner agree on every input except a hook that fails without an error. |
| PluginRunners.UpdateAsWrittenFailsSilently | libfwupdplugin/fu-plugin.c:2355-2363 | A hook that fails without an error makes the code as written fail with no error and no update error. The corrected runner reports "unspecified error" in both places. |
| PluginRunners.RunVerify | libfwupdplugin/fu-plugin.c:2125-2208 | Disabled or unloaded plugins succeed. Without a verify hook, a device lacking CAN_VERIFY is refused with NOT_SUPPORTED; one with it has its firmware read back. With a hook, the checksums are cleared and success needs detach, verify and attach all to succeed. A failed detach is reported as it is. A failed verify is reported through the dispatch rule whatever the re-attach does. After a successful verify, the outcome is the attach's. |
| PluginRunners.VerifyFailureIsPrefixed | libfwupdplugin/fu-plugin.c:2174-2196 | A failing verify hook gives an error with the hook's code and the message "failed to verify using <plugin>: " followed by the hook's message or "unspecified error". |
| PluginRunners.VerifyErrorPrefix | libfwupdplugin/fu-plugin.c:2185-2187 | The verify runner's prefix is "failed to verify using <plugin>: ", with "(null)" for an unnamed plugin. |
| PluginRunners.RunUpdateReload | libfwupdplugin/fu-plugin.c:1669-1683 | The reload succeeds exactly when the plugin is disabled or the device opens and reloads. A failure carries the open's error or else the reload's. |
| PluginRunners.UpdateReloadIgnoresModule | libfwupdplugin/fu-plugin.c:1669-1683 | The reload does not depend on the module. With no module loaded it still fails on a device that will not open, where a runner of the dispatch rule would succeed without a call. |
| PluginRunners.RunDeviceCreated | libfwupdplugin/fu-plugin.c:2088-2110 | The runner succeeds exactly when the plugin is disabled or unloaded, the hook is missing, or the hook succeeds. A failure is the hook's own, unprefixed and without a stand-in error. |
| PluginRunners.BackendDeviceAddedPlan | libfwupdplugin/fu-plugin.c:1842-1942 | The outcome, and whether the device gets added. Disabled or unloaded plugins succeed and add nothing. An exported hook follows the dispatch rule. Without a hook or device type the runner fails with INTERNAL "No device GType set". Otherwise the device is added exactly when device-created, the probe (for ONLY_SUPPORTED) and the open pass and the plugin has updates for it; the outcome is then success, or else that of the first failing step. |
| PluginRunners.OnlySecurityAttrsIgnoreDisabled | libfwupdplugin/fu-plugin.c:2006-2070 | Disabling a plugin stops the device-added and device-registered notifiers from calling their hooks. The security-attributes hook is called exactly as for the enabled plugin (lines 1694-1711). Without a module, no notifier calls anything. |
| Plugin.AddTreeSignalsDeviceFirst | libfwupdplugin/fu-plugin.c:469-518 | An add emits its first device-added signal for the device itself, under its own ID, and emits no more signals than the tree holds devices. |
| Plugin.Plugin.constructor | libfwupdplugin/fu-plugin.c:2889-2893 | A new plugin has no name, flags, module, devices, rules, cache, metadata, data or signals. Its order and priority are 0. |
| Plugin.Plugin.SetName | libfwupdplugin/fu-plugin.c:146-151 | The name is replaced. |
| Plugin.Plugin.SetBuildHash | libfwupdplugin/fu-plugin.c:163-176 | The stored hash becomes the given one; an equal hash is left as it is. |
| Plugin.Plugin.AllocData | libfwupdplugin/fu-plugin.c:299-310 | The block returned is always the one stored. The first call with a non-zero size stores a zero-filled block of that size; later calls return it and change nothing. A zero size leaves the slot NULL, as `g_malloc0 (0)` does, so a later call allocates again. |
| Plugin.Plugin.Enabled | libfwupdplugin/fu-plugin.c:323-328 | A plugin that is not enabled has every runner of the dispatch rule succeed without calling anything. |
| Plugin.Plugin.IsOpen | libfwupdplugin/fu-plugin.c:113-118 | A plugin that is not open has every runner of the dispatch rule succeed without calling anything. |
| Plugin.Plugin.SetEnabled | libfwupdplugin/fu-plugin.c:339-349 | Afterwards the plugin is enabled exactly as asked. Only DISABLED changes. |
| Plugin.Plugin.Open | libfwupdplugin/fu-plugin.c:386-422 | A load failure gives IO error "failed to open plugin <file>: <reason>", adds FAILED_OPEN and USER_WARNING, and keeps the name. A success leaves the flags alone and names an unnamed plugin after its file. |
| Plugin.Plugin.CacheLookup | libfwupdplugin/fu-plugin.c:207-218 | NULL when the cache was never created or has no such key. Otherwise the object stored. |
| Plugin.Plugin.CacheAdd | libfwupdplugin/fu-plugin.c:230-245 | Afterwards the lookup of the key gives the object, and every other key looks up as before. |
| Plugin.Plugin.CacheRemove | libfwupdplugin/fu-plugin.c:256-267 | Afterwards the key looks up as NULL and every other key as before. A cache never created stays uncreated. |
| Plugin.Plugin.DeviceAdd | libfwupdplugin/fu-plugin.c:469-518 | The device list grows by exactly the devices `AddTree` records, in order. One device-added signal is emitted for each. The device returned is the one `AddTree` leaves. |
| Plugin.Plugin.DeviceAddChildren | libfwupdplugin/fu-plugin.c:511-517 | The loop over the children matches `AddChildren`: the same children, the same devices recorded and the same signals. |
| Plugin.Plugin.DeviceAddChild | libfwupdplugin/fu-plugin.c:514-516 | A child is added only when its creation time is 0. |
| Plugin.Plugin.DeviceRemove | libfwupdplugin/fu-plugin.c:583-599 | The first copy of the device is removed, if any. Device-removed is emitted in any case. |
| Plugin.Plugin.RunBackendDeviceAdded | libfwupdplugin/fu-plugin.c:1894-1942 | The outcome is that of `BackendDeviceAddedPlan`. When the plan adds the device, the list and the signals grow exactly as `DeviceAdd` makes them; otherwise neither changes. |
| Plugin.Plugin.CreateAndAddDevice | libfwupdplugin/fu-plugin.c:1842-1880 | The fallback runs device-created, the probe, the support check and the open, in that order. It adds the device with `DeviceAdd` only when all pass, matching `BackendDeviceAddedPlan`. |
| Plugin.Plugin.DeviceRegister | libfwupdplugin/fu-plugin.c:554-572 | Device-register is emitted only for a device whose ID can be settled. |
| Plugin.Plugin.RequestRecoldplug | libfwupdplugin/fu-plugin.c:610-615 | Exactly one recoldplug signal is emitted. |
| Plugin.Plugin.SecurityChanged | libfwupdplugin/fu-plugin.c:625-630 | Exactly one security-changed signal is emitted. |
| Plugin.Plugin.SetColdplugDelay | libfwupdplugin/fu-plugin.c:1043-1059 | A zero duration changes nothing. Any other emits one request for the clamped duration. |
| Plugin.Plugin.AddFirmwareGtype | libfwupdplugin/fu-plugin.c:1813-1827 | The given ID is emitted as it is. Without one, the ID is the type name with a leading "Fu" and "Firmware" dropped, then uncamelcased. |
| Plugin.Plugin.SetUdevSubsystems | libfwupdplugin/fu-plugin.c:845-852 | The list is replaced. |
| Plugin.Plugin.AddUdevSubsystem | libfwupdplugin/fu-plugin.c:1724-1737 | Afterwards the subsystem is in the list. If it was already there the list is unchanged; otherwise it is appended at the end. A duplicate-free list stays duplicate-free. |
| Plugin.Plugin.GetRules | libfwupdplugin/fu-plugin.c:2591-2597 | NULL exactly for a rule kind never added to. Otherwise that kind's list. |
| Plugin.Plugin.AddRule | libfwupdplugin/fu-plugin.c:2570-2578 | The name is appended to that kind's list, which is created if needed, so `HasRule` then finds it. Other kinds are unchanged. Rules-changed is emitted. |
| Plugin.Plugin.HasRule | libfwupdplugin/fu-plugin.c:2611-2623 | True exactly when that kind's list exists and holds the name. False for a kind never added to. |
| Plugin.Plugin.SetOrder | libfwupdplugin/fu-plugin.c:2515-2520 | The order is replaced. |
| Plugin.Plugin.SetPriority | libfwupdplugin/fu-plugin.c:2548-2553 | The priority is replaced. |
| Plugin.Plugin.AddReportMetadata | libfwupdplugin/fu-plugin.c:2639-2650 | The table is created if needed, and the key then maps to the value. |
| Plugin.OrderCompare | libfwupdplugin/fu-plugin.c:2738-2758 | -1, 0 or 1, and negative, zero or positive exactly as the first plugin's order is below, equal to or above the second's. |
| Plugin.NameCompare | libfwupdplugin/fu-plugin.c:2731-2735 | Between -1 and 1, and 0 exactly when the two names are equal (both NULL included). |
| Plugin.OrderCompareIsTotalPreorder | libfwupdplugin/fu-plugin.c:2748-2758 | The comparison is antisymmetric and transitive, so it is fit for sorting. |

## Left out

- The AMD GPU test harness and the SteelSeries header have no logic of their own.
- Loading the shared object (`g_module_open`, `g_module_symbol`) is a parameter: `Open` receives the module, or its absence and the loader's message. The module's `fu_plugin_init` hook, run at the end of `Open`, is not modelled.
- Hooks and device-class operations are outcomes only. Whatever they do to the device or the plugin, besides succeeding or failing, is not modelled.
- GObject machinery is not modelled: refcounting, `fu_plugin_finalize`, and signal handlers, which only record emissions here.
- The `GRWLock` around the cache is left out, because it concerns concurrency only.
- File I/O is left out: the key file behind `fu_plugin_get_config_value`, and the backup file written by `fu_plugin_device_write_firmware`. The backup's success is the `saveBackup` outcome.
- The SHA1 and SHA256 checksums are parameters, because computing them is library code.
- The wall clock is the `now` parameter.
- `fu_device_ensure_id` is the device's `idResolvable` field, because deriving the ID belongs to the device class.
- The GType machinery behind `fu_plugin_backend_device_added` is the `deviceTypeKnown` flag. Creating the new device and `fu_device_incorporate` are left out: the device added is the backend device. `fu_device_convert_instance_ids` is left out, and `fu_plugin_check_supported_device` is the `supported` flag.
- Hardware IDs, quirks, SMBIOS, runtime and compile versions, possible quirk keys and config values are not modelled; they only store or forward data to other classes.
- Devices are values, not shared objects. Aliasing is therefore not modelled: the same device held by the plugin's list and by its parent, or changed through another reference. `DeviceRemove` removes by value equality, not by pointer.
- The udev subsystem array passed to `fu_plugin_set_udev_subsystems` is copied, not shared by reference.
- `fu_device_add_checksum` is modelled as an append. Its de-duplication is part of the device class.
- Runners other than the ones above differ from `Dispatch` only in their hook's arguments, so they are covered by the dispatch rule: startup, coldplug, recoldplug, coldplug prepare and cleanup, composite prepare and cleanup, update prepare, cleanup, attach and detach, clear and get results, and backend device changed.
- `fu_plugin_runner_device_removed` runs the backend-device-removed hook by the dispatch rule but returns nothing. A failure is only logged as a warning and then dropped, so no caller sees the outcome. The runner, and the logging, are left out.
- PluginHelpers.FirmwareTypeStem: as for `RemoveAll`, the contract states only that the stem is no longer than the type name and adds no character.
- PluginHelpers.Uncamelcase: the model works per Unicode character, the C code per byte. A multi-byte UTF-8 character would get a '-' before each of its bytes. GType names are ASCII, so this does not arise.
- GLib.StrCmp: returns the sign of `strcmp`, -1, 0 or 1. `g_strcmp0` returns `strcmp`'s raw value, so `Plugin.NameCompare`'s range of -1 to 1 holds only for the sign.
- PluginHelpers.RemoveAll: `fu_common_string_replace` is foreign code. It is modelled as removing the occurrences scanned left to right, and its contract states only that the result is no longer and adds no character.
- The `g_return_if_fail` guards are modelled as doing nothing, for example a zero coldplug delay. Their critical warnings are not modelled.

## Findings

| source | as written | input that shows it | evidently intended | confidence | as-written member | corrected member |
|---|---|---|---|---|---|---|
| libfwupdplugin/fu-plugin.c:2355-2367 | When the update hook returns FALSE without setting an error, the runner sets the "unspecified error" stand-in and then returns FALSE at line 2363. The stand-in is never propagated, and the device's update error is not set. | An update hook that returns FALSE and leaves its error unset, on an enabled plugin with a loaded module. | As in every other runner, the stand-in error is used like a real one: it is recorded as the device's update error and propagated to the caller. | not executed | PluginRunners.RunUpdateAsWritten (UpdateAsWrittenFailsSilently) | PluginRunners.RunUpdate (UpdateFailureCarriesError) |
