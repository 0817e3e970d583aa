/** The flag and rule enumerations the plugin code reads and writes. Only the
    members the plugin code names are listed; the others behave alike. */
module FwupdEnums {

  /** `FwupdPluginFlags`, kept by a plugin as a set. */
  datatype PluginFlag =
    | Disabled
    | UserWarning
    | ClearUpdatable
    | NoHardware
    | LegacyBios
    | CapsulesUnsupported
    | UnlockRequired
    | EfivarNotMounted
    | EspNotFound
    | FailedOpen
    | RequireHwid
    | KernelTooOld
    | AuthRequired

  /** `FwupdDeviceFlags`, kept by a device as a set. */
  datatype DeviceFlag =
    | Updatable
    | UpdatableHidden
    | NeedsActivation
    | Locked
    | NeedsReboot
    | NeedsShutdown
    | CanVerify
    | BackupBeforeInstall
    | Internal
    | Registered

  /** `FuPluginRule`: the kinds of ordering and conflict rules between plugins. */
  datatype PluginRule =
    | Conflicts
    | RunAfter
    | RunBefore
    | BetterThan
    | InhibitsIdle
    | MetadataSource
}
