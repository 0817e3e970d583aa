/** Devices as the plugin object sees them, and what `fu_plugin_device_add` does to a
    device tree: every device whose ID can be settled is stamped by the plugin and
    recorded, then those of its children not yet created are added the same way. */
module PluginDevices {
  import opened GLib
  import opened FwupdEnums
  import opened PluginHelpers

  /** The parts of a `FuDevice` the plugin code reads or writes.
      `idResolvable` says whether `fu_device_ensure_id` would succeed; how the ID is
      derived from the physical and logical IDs belongs to the device class, which is
      not part of this model. */
  datatype Device = Device(
    id: Option<string>,
    idResolvable: bool,
    flags: set<DeviceFlag>,
    updateError: Option<string>,
    created: nat,
    modified: nat,
    plugin: Option<string>,
    checksums: seq<string>,
    children: seq<Device>)

  /** What `fu_plugin_device_add` reads from the plugin, and the wall-clock second. */
  datatype AddContext = AddContext(pluginFlags: set<PluginFlag>, pluginName: Option<string>, now: nat)

  /** The changes made to one device before the device-added signal: UPDATABLE dropped
      for a clear-updatable plugin, the plugin's update error filled in when it warns the
      user and the device has none yet, the creation time and owning plugin set. */
  function Adopt(d: Device, ctx: AddContext): (a: Device)
    ensures a.created == ctx.now && a.plugin == ctx.pluginName
    ensures a.id == d.id && a.children == d.children && a.checksums == d.checksums
    ensures a.idResolvable == d.idResolvable && a.modified == d.modified
    ensures Updatable in a.flags <==> Updatable in d.flags && ClearUpdatable !in ctx.pluginFlags
    ensures a.flags - {Updatable} == d.flags - {Updatable}
    ensures d.updateError.Some? ==> a.updateError == d.updateError
    ensures UserWarning !in ctx.pluginFlags ==> a.updateError == d.updateError
    ensures d.updateError.None? && UserWarning in ctx.pluginFlags ==>
              a.updateError == BuildDeviceUpdateError(ctx.pluginFlags)
  {
    var flags := if ClearUpdatable in ctx.pluginFlags then d.flags - {Updatable} else d.flags;
    var updateError :=
      if UserWarning in ctx.pluginFlags && d.updateError.None?
      then BuildDeviceUpdateError(ctx.pluginFlags)
      else d.updateError;
    d.(flags := flags, updateError := updateError, created := ctx.now, plugin := ctx.pluginName)
  }

  /** The device as left by an add (its children updated), and every device appended
      to the plugin's list, in order. */
  datatype AddResult = AddResult(device: Device, added: seq<Device>)

  /** The children as left by an add, and the devices appended while adding them. */
  datatype ChildrenResult = ChildrenResult(children: seq<Device>, added: seq<Device>)

  /** `fu_plugin_device_add` on `d`: ignored when the ID cannot be settled; otherwise
      `d` is adopted and appended, then its children are added in order. */
  function AddTree(d: Device, ctx: AddContext): (r: AddResult)
    ensures d.idResolvable <==> |r.added| > 0
    ensures d.idResolvable ==> r.added[0] == r.device
    ensures d.idResolvable ==> r.device.(children := d.children) == Adopt(d, ctx)
    ensures d.idResolvable ==> |r.device.children| == |d.children|
    ensures !d.idResolvable ==> r.device == d
    decreases d, 0
  {
    if !d.idResolvable then AddResult(d, [])
    else
      var kids := AddChildren(d.children, ctx);
      var final := Adopt(d, ctx).(children := kids.children);
      AddResult(final, [final] + kids.added)
  }

  /** One child: added only when its creation time is still 0. */
  function AddChild(c: Device, ctx: AddContext): (r: AddResult)
    decreases c, 1
  {
    if c.created == 0 then AddTree(c, ctx) else AddResult(c, [])
  }

  /** The children, one after the other. */
  function AddChildren(cs: seq<Device>, ctx: AddContext): (r: ChildrenResult)
    ensures |r.children| == |cs|
    decreases cs, 2
  {
    if |cs| == 0 then ChildrenResult([], [])
    else
      var front := AddChildren(cs[..|cs| - 1], ctx);
      var last := AddChild(cs[|cs| - 1], ctx);
      ChildrenResult(front.children + [last.device], front.added + last.added)
  }

  /** Adding the children one more step. */
  lemma AddChildrenStep(cs: seq<Device>, i: nat, ctx: AddContext)
    requires i < |cs|
    ensures AddChildren(cs[..i + 1], ctx) ==
      ChildrenResult(AddChildren(cs[..i], ctx).children + [AddChild(cs[i], ctx).device],
                     AddChildren(cs[..i], ctx).added + AddChild(cs[i], ctx).added)
  {
    assert cs[..i + 1][..i] == cs[..i];
  }

  /** The device once adopted: what the add leaves on every device it records. */
  predicate Stamped(x: Device, ctx: AddContext)
  {
    && x.created == ctx.now
    && x.plugin == ctx.pluginName
    && (ClearUpdatable in ctx.pluginFlags ==> Updatable !in x.flags)
    && (UserWarning in ctx.pluginFlags && BuildDeviceUpdateError(ctx.pluginFlags).Some? ==> x.updateError.Some?)
  }

  /** Every device an add records carries the plugin's stamp. */
  lemma {:induction false} AddTreeStampsAll(d: Device, ctx: AddContext)
    ensures forall k :: 0 <= k < |AddTree(d, ctx).added| ==> Stamped(AddTree(d, ctx).added[k], ctx)
    decreases d, 0
  {
    if d.idResolvable {
      AddChildrenStampsAll(d.children, ctx);
    }
  }

  lemma {:induction false} AddChildStampsAll(c: Device, ctx: AddContext)
    ensures forall k :: 0 <= k < |AddChild(c, ctx).added| ==> Stamped(AddChild(c, ctx).added[k], ctx)
    decreases c, 1
  {
    if c.created == 0 {
      AddTreeStampsAll(c, ctx);
    }
  }

  lemma {:induction false} AddChildrenStampsAll(cs: seq<Device>, ctx: AddContext)
    ensures forall k :: 0 <= k < |AddChildren(cs, ctx).added| ==> Stamped(AddChildren(cs, ctx).added[k], ctx)
    decreases cs, 2
  {
    if |cs| > 0 {
      AddChildrenStampsAll(cs[..|cs| - 1], ctx);
      AddChildStampsAll(cs[|cs| - 1], ctx);
    }
  }

  /** The number of devices in a tree. */
  function Size(d: Device): nat
    decreases d, 1
  {
    1 + SizeAll(d.children)
  }

  function SizeAll(cs: seq<Device>): nat
    decreases cs, 0
  {
    if |cs| == 0 then 0 else SizeAll(cs[..|cs| - 1]) + Size(cs[|cs| - 1])
  }

  /** An add records no more devices than the tree holds. */
  lemma {:induction false} AddTreeBounded(d: Device, ctx: AddContext)
    ensures |AddTree(d, ctx).added| <= Size(d)
    decreases d, 0
  {
    if d.idResolvable {
      AddChildrenBounded(d.children, ctx);
    }
  }

  lemma {:induction false} AddChildBounded(c: Device, ctx: AddContext)
    ensures |AddChild(c, ctx).added| <= Size(c)
    decreases c, 1
  {
    if c.created == 0 {
      AddTreeBounded(c, ctx);
    }
  }

  lemma {:induction false} AddChildrenBounded(cs: seq<Device>, ctx: AddContext)
    ensures |AddChildren(cs, ctx).added| <= SizeAll(cs)
    decreases cs, 2
  {
    if |cs| > 0 {
      AddChildrenBounded(cs[..|cs| - 1], ctx);
      AddChildBounded(cs[|cs| - 1], ctx);
    }
  }

  /** Children already created are neither recorded again nor changed. */
  lemma {:induction false} CreatedChildrenAreKept(cs: seq<Device>, ctx: AddContext, k: nat)
    requires k < |cs| && cs[k].created != 0
    ensures AddChildren(cs, ctx).children[k] == cs[k]
    decreases |cs|
  {
    if k < |cs| - 1 {
      CreatedChildrenAreKept(cs[..|cs| - 1], ctx, k);
    }
  }

  /** Children that were all created already add nothing: the loop records no
      device and leaves every child as it was. */
  lemma {:induction false} CreatedChildrenAddNothing(cs: seq<Device>, ctx: AddContext)
    requires forall k :: 0 <= k < |cs| ==> cs[k].created != 0
    ensures AddChildren(cs, ctx) == ChildrenResult(cs, [])
    decreases |cs|
  {
    if |cs| > 0 {
      var front := cs[..|cs| - 1];
      var last := cs[|cs| - 1];
      assert forall k :: 0 <= k < |front| ==> front[k] == cs[k];
      CreatedChildrenAddNothing(front, ctx);
      assert AddChild(last, ctx) == AddResult(last, []);
      assert front + [last] == cs;
    }
  }

  /** A child not created yet is added like any device: it comes out of the loop as
      `AddTree` leaves it and, when its ID can be settled, it is among the devices
      recorded. */
  lemma {:induction false} UncreatedChildIsAdded(cs: seq<Device>, ctx: AddContext, k: nat)
    requires k < |cs| && cs[k].created == 0
    ensures AddChildren(cs, ctx).children[k] == AddTree(cs[k], ctx).device
    ensures cs[k].idResolvable ==> AddTree(cs[k], ctx).device in AddChildren(cs, ctx).added
    decreases |cs|
  {
    if k < |cs| - 1 {
      UncreatedChildIsAdded(cs[..|cs| - 1], ctx, k);
    }
  }

  // ---------------------------------------------------------------------------
  // fu_plugin_device_remove

  /** `g_ptr_array_remove`: the first element equal to `x` removed, if there is one. */
  function RemoveFirst(s: seq<Device>, x: Device): (r: seq<Device>)
    ensures x !in s ==> r == s
    ensures x in s ==> |r| == |s| - 1
  {
    if |s| == 0 then []
    else if s[0] == x then s[1..]
    else [s[0]] + RemoveFirst(s[1..], x)
  }

  /** Removing takes out one copy of the device and keeps everything else, in order. */
  lemma {:induction false} RemoveFirstIsOneCopyLess(s: seq<Device>, x: Device)
    ensures multiset(RemoveFirst(s, x)) == multiset(s) - multiset{x}
  {
    if |s| > 0 {
      assert s == [s[0]] + s[1..];
      assert multiset(s) == multiset{s[0]} + multiset(s[1..]);
      if s[0] != x {
        RemoveFirstIsOneCopyLess(s[1..], x);
        assert multiset(RemoveFirst(s, x)) == multiset{s[0]} + multiset(RemoveFirst(s[1..], x));
      }
    }
  }

  /** When the first copy of `x` sits at `i`, the removal keeps the elements before
      it and after it, in order. */
  lemma {:induction false} RemoveFirstSplits(s: seq<Device>, x: Device, i: nat)
    requires i < |s| && s[i] == x && x !in s[..i]
    ensures RemoveFirst(s, x) == s[..i] + s[i + 1..]
  {
    if i == 0 {
      assert s[..0] + s[1..] == s[1..];
    } else {
      var t := s[1..];
      assert s[..i] == [s[0]] + s[1..i];
      assert t[..i - 1] == s[1..i];
      RemoveFirstSplits(t, x, i - 1);
      assert s[i + 1..] == t[i..];
    }
  }
}
