/** The stateless helpers of the plugin object: guessing a plugin name from its
    shared-object file name, the user-facing reason a device cannot be updated, the
    coldplug-delay clamp and the CamelCase to kebab-case rewrite. */
module PluginHelpers {
  import opened GLib
  import opened FwupdEnums

  // ---------------------------------------------------------------------------
  // fu_plugin_guess_name_from_fn

  const PluginPrefix: string := "libfu_plugin_"

  /** `pat` occurs in `s` starting at index `i`. */
  predicate OccursAt(s: string, pat: string, i: int)
  {
    0 <= i && i + |pat| <= |s| && s[i..i + |pat|] == pat
  }

  /** `g_strstr_len (s + i, -1, pat)`: the first occurrence of `pat` at or after `i`. */
  function FindFrom(s: string, pat: string, i: nat): (r: Option<nat>)
    requires i <= |s|
    ensures r.Some? ==> i <= r.value && OccursAt(s, pat, r.value)
    ensures r.Some? ==> forall j :: i <= j < r.value ==> !OccursAt(s, pat, j)
    ensures r.None? ==> forall j :: i <= j ==> !OccursAt(s, pat, j)
    decreases |s| - i
  {
    if OccursAt(s, pat, i) then Some(i)
    else if i == |s| then None
    else FindFrom(s, pat, i + 1)
  }

  /** The C string left after `g_strdelimit (s, ".", '\0')`: everything before the first '.'. */
  function CutAtDot(s: string): (r: string)
    ensures '.' !in r
    ensures r <= s
    ensures |r| < |s| ==> s[|r|] == '.'
  {
    if |s| == 0 || s[0] == '.' then "" else [s[0]] + CutAtDot(s[1..])
  }

  /** The plugin name encoded in a module file name: the text after the first
      "libfu_plugin_", up to the first '.'; NULL when the prefix does not occur. */
  function GuessNameFromFn(filename: CString): (r: Option<string>)
    ensures r.None? <==> forall j :: !OccursAt(filename, PluginPrefix, j)
    ensures r.Some? ==> '.' !in r.value
    ensures r.Some? ==> exists k :: OccursAt(filename, PluginPrefix, k)
                            && (forall j :: 0 <= j < k ==> !OccursAt(filename, PluginPrefix, j))
                            && r.value <= filename[k + |PluginPrefix|..]
                            && (k + |PluginPrefix| + |r.value| < |filename| ==>
                                  filename[k + |PluginPrefix| + |r.value|] == '.')
  {
    match FindFrom(filename, PluginPrefix, 0)
    case None => None
    case Some(k) => Some(CutAtDot(filename[k + |PluginPrefix|..]))
  }

  /** Cutting a dot-free name followed by an extension gives back the name. */
  lemma {:induction false} CutAtDotOfNameAndExtension(name: string, ext: string)
    requires '.' !in name
    requires ext == [] || ext[0] == '.'
    ensures CutAtDot(name + ext) == name
  {
    if name != [] {
      assert (name + ext)[1..] == name[1..] + ext;
      CutAtDotOfNameAndExtension(name[1..], ext);
    }
  }

  /** In "<dir>libfu_plugin_", the prefix occurs first right after `dir`. */
  predicate PrefixFirstAfter(dir: string)
  {
    forall j :: 0 <= j < |dir| ==> !OccursAt(dir + PluginPrefix, PluginPrefix, j)
  }

  /** Whatever follows, the search then finds the prefix right after `dir`: an
      earlier occurrence would end before the rest begins. */
  lemma PrefixFirstOccursAfterDirectory(dir: CString, rest: string)
    requires PrefixFirstAfter(dir)
    ensures FindFrom(dir + PluginPrefix + rest, PluginPrefix, 0) == Some(|dir|)
  {
    var f := dir + PluginPrefix + rest;
    assert OccursAt(f, PluginPrefix, |dir|) by {
      assert f[|dir|..|dir| + |PluginPrefix|] == PluginPrefix;
    }
    forall j | 0 <= j < |dir|
      ensures !OccursAt(f, PluginPrefix, j)
    {
      assert f[j..j + |PluginPrefix|] == (dir + PluginPrefix)[j..j + |PluginPrefix|];
      assert !OccursAt(dir + PluginPrefix, PluginPrefix, j);
    }
  }

  /** A directory with no '_' qualifies: an earlier start would need a '_' at its
      sixth character. */
  lemma UnderscoreFreeDirectory(dir: CString)
    requires '_' !in dir
    ensures PrefixFirstAfter(dir)
  {
    var f := dir + PluginPrefix;
    forall j | 0 <= j < |dir|
      ensures !OccursAt(f, PluginPrefix, j)
    {
      if j + |PluginPrefix| <= |f| {
        if j + 5 < |dir| {
          assert f[j + 5] == dir[j + 5];
        } else {
          assert f[j + 5] == PluginPrefix[j + 5 - |dir|];
        }
        assert f[j..j + |PluginPrefix|][5] == f[j + 5] != '_';
      }
    }
  }

  /** The name is recovered from a file named after it, "libfu_plugin_<name>.so",
      behind any directory in which the prefix does not start early, such as one
      with no '_' (`UnderscoreFreeDirectory`). */
  lemma GuessNameOfPluginFile(dir: CString, name: CString, ext: CString)
    requires PrefixFirstAfter(dir)
    requires '.' !in name
    requires ext == [] || ext[0] == '.'
    ensures GuessNameFromFn(dir + PluginPrefix + name + ext) == Some(name)
  {
    var f := dir + PluginPrefix + name + ext;
    assert f == dir + PluginPrefix + (name + ext);
    PrefixFirstOccursAfterDirectory(dir, name + ext);
    assert f[|dir| + |PluginPrefix|..] == name + ext;
    CutAtDotOfNameAndExtension(name, ext);
  }

  // ---------------------------------------------------------------------------
  // fu_plugin_build_device_update_error

  /** The flags that explain why devices of a plugin cannot be updated, most useful first. */
  const UpdateErrorPriority: seq<PluginFlag> :=
    [NoHardware, LegacyBios, CapsulesUnsupported, UnlockRequired, EfivarNotMounted, EspNotFound, Disabled]

  /** The explanation shown to the user for each such flag. */
  function UpdateErrorMessage(f: PluginFlag): string
  {
    match f
    case NoHardware => "Not updatable as required hardware was not found"
    case LegacyBios => "Not updatable in legacy BIOS mode"
    case CapsulesUnsupported => "Not updatable as UEFI capsule updates not enabled in firmware setup"
    case UnlockRequired => "Not updatable as requires unlock"
    case EfivarNotMounted => "Not updatable as efivarfs was not found"
    case EspNotFound => "Not updatable as UEFI ESP partition not detected"
    case Disabled => "Not updatable as plugin was disabled"
    case _ => ""
  }

  /** The first flag of `order` that is set. */
  function FirstSet(order: seq<PluginFlag>, flags: set<PluginFlag>): (r: Option<nat>)
    ensures r.Some? ==> r.value < |order| && order[r.value] in flags
    ensures r.Some? ==> forall j :: 0 <= j < r.value ==> order[j] !in flags
    ensures r.None? <==> forall j :: 0 <= j < |order| ==> order[j] !in flags
  {
    if |order| == 0 then None
    else if order[0] in flags then Some(0)
    else match FirstSet(order[1..], flags)
      case None => None
      case Some(i) => Some(i + 1)
  }

  /** The reason shown on the devices of a plugin that carries a user warning: the
      flags are tested one after the other, and the first one set gives its message. */
  function BuildDeviceUpdateError(flags: set<PluginFlag>): (r: Option<string>)
    ensures r.None? <==> && NoHardware !in flags && LegacyBios !in flags && CapsulesUnsupported !in flags
                         && UnlockRequired !in flags && EfivarNotMounted !in flags && EspNotFound !in flags
                         && Disabled !in flags
    ensures NoHardware in flags ==> r == Some(UpdateErrorMessage(NoHardware))
  {
    if NoHardware in flags then Some(UpdateErrorMessage(NoHardware))
    else if LegacyBios in flags then Some(UpdateErrorMessage(LegacyBios))
    else if CapsulesUnsupported in flags then Some(UpdateErrorMessage(CapsulesUnsupported))
    else if UnlockRequired in flags then Some(UpdateErrorMessage(UnlockRequired))
    else if EfivarNotMounted in flags then Some(UpdateErrorMessage(EfivarNotMounted))
    else if EspNotFound in flags then Some(UpdateErrorMessage(EspNotFound))
    else if Disabled in flags then Some(UpdateErrorMessage(Disabled))
    else None
  }

  /** Where the first set flag in priority order is at `i`, the if-chain gives its message. */
  lemma MessageAt(flags: set<PluginFlag>, i: nat)
    requires i < |UpdateErrorPriority| && UpdateErrorPriority[i] in flags
    requires forall j :: 0 <= j < i ==> UpdateErrorPriority[j] !in flags
    ensures BuildDeviceUpdateError(flags) == Some(UpdateErrorMessage(UpdateErrorPriority[i]))
  {
    var p := UpdateErrorPriority;
    if i == 0 {
      assert p[0] == NoHardware;
    } else if i == 1 {
      assert p[0] !in flags;
      assert p[1] == LegacyBios;
    } else if i == 2 {
      assert p[0] !in flags && p[1] !in flags;
      assert p[2] == CapsulesUnsupported;
    } else if i == 3 {
      assert p[0] !in flags && p[1] !in flags && p[2] !in flags;
      assert p[3] == UnlockRequired;
    } else if i == 4 {
      assert p[0] !in flags && p[1] !in flags && p[2] !in flags && p[3] !in flags;
      assert p[4] == EfivarNotMounted;
    } else if i == 5 {
      assert p[0] !in flags && p[1] !in flags && p[2] !in flags && p[3] !in flags && p[4] !in flags;
      assert p[5] == EspNotFound;
    } else {
      assert p[0] !in flags && p[1] !in flags && p[2] !in flags && p[3] !in flags && p[4] !in flags && p[5] !in flags;
      assert p[6] == Disabled;
    }
  }

  /** The message is the one of the first flag set, in priority order, and there is
      none exactly when none of the seven flags is set. */
  lemma BuildDeviceUpdateErrorFollowsPriority(flags: set<PluginFlag>)
    ensures BuildDeviceUpdateError(flags).None? <==>
      forall j :: 0 <= j < |UpdateErrorPriority| ==> UpdateErrorPriority[j] !in flags
    ensures BuildDeviceUpdateError(flags) ==
      match FirstSet(UpdateErrorPriority, flags)
      case None => None
      case Some(i) => Some(UpdateErrorMessage(UpdateErrorPriority[i]))
  {
    match FirstSet(UpdateErrorPriority, flags)
    case None =>
      var p := UpdateErrorPriority;
      assert p[0] !in flags && p[1] !in flags && p[2] !in flags && p[3] !in flags;
      assert p[4] !in flags && p[5] !in flags && p[6] !in flags;
    case Some(i) =>
      MessageAt(flags, i);
  }

  // ---------------------------------------------------------------------------
  // fu_plugin_set_coldplug_delay

  /** The longest coldplug delay a plugin may ask for, in milliseconds. */
  const ColdplugDelayMaximum: uint32 := 3000

  /** The delay actually requested: the plugin's value, truncated to the maximum. */
  function ClampColdplugDelay(duration: uint32): (r: uint32)
    ensures r <= ColdplugDelayMaximum && r <= duration
    ensures r == duration || r == ColdplugDelayMaximum
  {
    if duration > ColdplugDelayMaximum then ColdplugDelayMaximum else duration
  }

  // ---------------------------------------------------------------------------
  // fu_common_string_uncamelcase

  /** `g_ascii_islower (c) || g_ascii_isdigit (c)`: characters copied as they are. */
  predicate KeptAsIs(c: char)
  {
    'a' <= c <= 'z' || '0' <= c <= '9'
  }

  /** `g_ascii_tolower`. */
  function AsciiLower(c: char): char
  {
    if 'A' <= c <= 'Z' then (c as int + 32) as char else c
  }

  /** What the rewrite emits for the character `c`; `first` when it is at index 0. */
  function Rewritten(c: char, first: bool): string
  {
    if KeptAsIs(c) then [c]
    else if first then [AsciiLower(c)]
    else ['-', AsciiLower(c)]
  }

  /** The output produced for the first `n` characters of `s`. */
  function UncamelcasePrefix(s: string, n: nat): string
    requires n <= |s|
  {
    if n == 0 then "" else UncamelcasePrefix(s, n - 1) + Rewritten(s[n - 1], n == 1)
  }

  /** The number of characters after index 0, among the first `n`, that get a '-' before them. */
  function DashesBefore(s: string, n: nat): nat
    requires n <= |s|
  {
    if n <= 1 then 0 else DashesBefore(s, n - 1) + (if KeptAsIs(s[n - 1]) then 0 else 1)
  }

  /** Builds the kebab-case form of a CamelCase identifier, character by character. */
  method Uncamelcase(str: CString) returns (r: string)
    ensures r == UncamelcasePrefix(str, |str|)
    ensures |r| == |str| + DashesBefore(str, |str|)
  {
    r := "";
    var i := 0;
    while i < |str|
      invariant 0 <= i <= |str|
      invariant r == UncamelcasePrefix(str, i)
      invariant |r| == i + DashesBefore(str, i)
    {
      if KeptAsIs(str[i]) {
        r := r + [str[i]];
        i := i + 1;
        continue;
      }
      if i > 0 {
        r := r + ['-'];
      }
      r := r + [AsciiLower(str[i])];
      i := i + 1;
    }
  }

  predicate IsAsciiUpper(c: char)
  {
    'A' <= c <= 'Z'
  }

  /** The output has no ASCII uppercase letter. */
  lemma {:induction false} UncamelcaseHasNoUppercase(s: string, n: nat)
    requires n <= |s|
    ensures forall i :: 0 <= i < |UncamelcasePrefix(s, n)| ==> !IsAsciiUpper(UncamelcasePrefix(s, n)[i])
  {
    if n > 0 {
      UncamelcaseHasNoUppercase(s, n - 1);
      var w := Rewritten(s[n - 1], n == 1);
      assert forall i :: 0 <= i < |w| ==> !IsAsciiUpper(w[i]);
    }
  }

  /** A string already made of lowercase letters and digits comes back unchanged. */
  lemma {:induction false} UncamelcaseKeepsLowercase(s: string, n: nat)
    requires n <= |s|
    requires forall i :: 0 <= i < |s| ==> KeptAsIs(s[i])
    ensures UncamelcasePrefix(s, n) == s[..n]
  {
    if n > 0 {
      UncamelcaseKeepsLowercase(s, n - 1);
      assert s[..n] == s[..n - 1] + [s[n - 1]];
    }
  }

  /** The output is as long as the input plus the dashes inserted. */
  lemma {:induction false} UncamelcaseLength(s: string, n: nat)
    requires n <= |s|
    ensures |UncamelcasePrefix(s, n)| == n + DashesBefore(s, n)
  {
    if n > 0 {
      UncamelcaseLength(s, n - 1);
    }
  }

  /** Where each input character lands: the character at index `i` comes out,
      lowercased unless it is a lowercase letter or digit, at `i` plus the number of
      dashes inserted up to and including it; a rewritten character after index 0
      has a '-' just before it. */
  lemma {:induction false} UncamelcasePlacesCharacter(s: string, n: nat, i: nat)
    requires i < n <= |s|
    ensures i + DashesBefore(s, i + 1) < |UncamelcasePrefix(s, n)|
    ensures UncamelcasePrefix(s, n)[i + DashesBefore(s, i + 1)] ==
              (if KeptAsIs(s[i]) then s[i] else AsciiLower(s[i]))
    ensures 0 < i && !KeptAsIs(s[i]) ==>
              1 <= DashesBefore(s, i + 1) && UncamelcasePrefix(s, n)[i + DashesBefore(s, i + 1) - 1] == '-'
  {
    UncamelcaseLength(s, n - 1);
    var p := UncamelcasePrefix(s, n - 1);
    var w := Rewritten(s[n - 1], n == 1);
    assert UncamelcasePrefix(s, n) == p + w;
    if i < n - 1 {
      UncamelcasePlacesCharacter(s, n - 1, i);
    }
  }

  // ---------------------------------------------------------------------------
  // The type-name clean-up of fu_plugin_add_firmware_gtype

  /** `fu_common_string_replace (str, pat, "")`: every occurrence of `pat`, found
      scanning left to right, removed. */
  function RemoveAll(s: string, pat: string): (r: string)
    requires |pat| > 0
    ensures |r| <= |s|
    ensures forall c :: c in r ==> c in s
    decreases |s|
  {
    if |s| == 0 then ""
    else if |pat| <= |s| && s[..|pat|] == pat then RemoveAll(s[|pat|..], pat)
    else [s[0]] + RemoveAll(s[1..], pat)
  }

  /** A GType name with a leading "Fu" and every "Firmware" dropped, e.g.
      FuIhexFirmware becomes Ihex. */
  function FirmwareTypeStem(typeName: CString): (r: CString)
    ensures |r| <= |typeName|
    ensures forall c :: c in r ==> c in typeName
  {
    var s := if |typeName| >= 2 && typeName[..2] == "Fu" then typeName[2..] else typeName;
    RemoveAll(s, "Firmware")
  }
}
