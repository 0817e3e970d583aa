/** `fu_efi_guid_to_name`: the nice names of the known EFI firmware-volume and
    firmware-file GUIDs. */
module EfiCommon {
  import opened GLib

  /** The ten GUID constants of the EFI header, in the order the lookup tests them.
      Their text is not part of this model; lemmas state what they rely on. */
  datatype KnownGuids = KnownGuids(
    ffs1: CString, ffs2: CString, ffs3: CString,
    nvramEvsa: CString, nvramNvar: CString, nvramEvsa2: CString,
    appleBoot: CString, pfh1: CString, pfh2: CString,
    fvImage: CString)
  {
    function Guids(): (s: seq<CString>)
      ensures |s| == 10
      ensures s[0] == ffs1 && s[1] == ffs2 && s[2] == ffs3
      ensures s[3] == nvramEvsa && s[4] == nvramNvar && s[5] == nvramEvsa2
      ensures s[6] == appleBoot && s[7] == pfh1 && s[8] == pfh2 && s[9] == fvImage
    {
      [ffs1, ffs2, ffs3, nvramEvsa, nvramNvar, nvramEvsa2, appleBoot, pfh1, pfh2, fvImage]
    }

    /** The constants are pairwise distinct. */
    predicate Distinct()
    {
      forall i, j :: 0 <= i < j < 10 ==> Guids()[i] != Guids()[j]
    }

    /** Every constant is written in the lowercase form the lookup expects. */
    predicate Lowercase()
    {
      forall i :: 0 <= i < 10 ==> IsLowercaseGuid(Guids()[i])
    }
  }

  predicate IsLowerHex(c: char)
  {
    '0' <= c <= '9' || 'a' <= c <= 'f'
  }

  /** The textual form `xxxxxxxx-xxxx-xxxx-xxxx-xxxxxxxxxxxx` in lowercase hex. */
  predicate IsLowercaseGuid(s: string)
  {
    && |s| == 36
    && forall i :: 0 <= i < 36 ==>
         if i == 8 || i == 13 || i == 18 || i == 23 then s[i] == '-' else IsLowerHex(s[i])
  }

  /** The names, index for index with `KnownGuids.Guids()`. */
  const Names: seq<string> := [
    "Volume:Ffs1", "Volume:Ffs2", "Volume:Ffs3",
    "Volume:NvramEvsa", "Volume:NvramNvar", "Volume:NvramEvsa2",
    "Volume:AppleBoot", "Volume:Pfh1", "Volume:Pfh2",
    "File:FvImage"]

  /** The nice name of `guid`, or NULL when it is NULL or not one of the constants.
      `g_strcmp0` matches NULL only against NULL, and the constants are never NULL. */
  function GuidToName(k: KnownGuids, guid: Option<CString>): (r: Option<string>)
    ensures guid.None? ==> r.None?
    ensures r.Some? ==> r.value in Names
  {
    if guid == Some(k.ffs1) then Some(Names[0])
    else if guid == Some(k.ffs2) then Some(Names[1])
    else if guid == Some(k.ffs3) then Some(Names[2])
    else if guid == Some(k.nvramEvsa) then Some(Names[3])
    else if guid == Some(k.nvramNvar) then Some(Names[4])
    else if guid == Some(k.nvramEvsa2) then Some(Names[5])
    else if guid == Some(k.appleBoot) then Some(Names[6])
    else if guid == Some(k.pfh1) then Some(Names[7])
    else if guid == Some(k.pfh2) then Some(Names[8])
    else if guid == Some(k.fvImage) then Some(Names[9])
    else None
  }

  /** Reference lookup: the index of the first element of `keys` equal to `x`. */
  function FirstIndex(keys: seq<string>, x: string): (r: Option<nat>)
    ensures r.Some? ==> r.value < |keys| && keys[r.value] == x
    ensures r.Some? ==> forall j :: 0 <= j < r.value ==> keys[j] != x
    ensures r.None? <==> x !in keys
  {
    if |keys| == 0 then None
    else if keys[0] == x then Some(0)
    else match FirstIndex(keys[1..], x)
      case None => None
      case Some(i) => Some(i + 1)
  }

  /** NULL and every string that is none of the constants yield NULL, and only they. */
  lemma UnknownGuidsYieldNull(k: KnownGuids, guid: Option<CString>)
    ensures GuidToName(k, guid).None? <==> (guid.None? || guid.value !in k.Guids())
  {
  }

  /** Where the reference lookup finds `g` at `i`, the if-chain answers `Names[i]`. */
  lemma FoundAt(k: KnownGuids, g: CString, i: nat)
    requires i < 10 && k.Guids()[i] == g
    requires forall j :: 0 <= j < i ==> k.Guids()[j] != g
    ensures GuidToName(k, Some(g)) == Some(Names[i])
  {
  }

  /** The if-chain is a first-match table lookup: the name paired with the first
      constant equal to `guid`, and NULL when there is none. */
  lemma GuidToNameIsTableLookup(k: KnownGuids, guid: Option<CString>)
    ensures GuidToName(k, guid) ==
      match guid
      case None => None
      case Some(g) =>
        match FirstIndex(k.Guids(), g)
        case None => None
        case Some(i) => Some(Names[i])
  {
    if guid.Some? {
      match FirstIndex(k.Guids(), guid.value)
      case None => UnknownGuidsYieldNull(k, guid);
      case Some(i) => FoundAt(k, guid.value, i);
    }
  }

  /** With distinct constants, each known GUID maps to its own name. */
  lemma KnownGuidsMapToTheirNames(k: KnownGuids, i: nat)
    requires k.Distinct()
    requires i < 10
    ensures GuidToName(k, Some(k.Guids()[i])) == Some(Names[i])
  {
    var g := k.Guids()[i];
    GuidToNameIsTableLookup(k, Some(g));
    var r := FirstIndex(k.Guids(), g);
    assert r == Some(i);
  }

  /** The two examples of the documentation comment. */
  lemma FvImageAndFfs2Names(k: KnownGuids)
    requires k.Distinct()
    ensures GuidToName(k, Some(k.fvImage)) == Some("File:FvImage")
    ensures GuidToName(k, Some(k.ffs2)) == Some("Volume:Ffs2")
  {
    KnownGuidsMapToTheirNames(k, 9);
    KnownGuidsMapToTheirNames(k, 1);
  }

  /** Every name starts with "Volume:" or "File:". */
  lemma NamesAreVolumeOrFile(k: KnownGuids, guid: Option<CString>)
    ensures GuidToName(k, guid).Some? ==>
      var n := GuidToName(k, guid).value;
      (|n| >= 7 && n[..7] == "Volume:") || (|n| >= 5 && n[..5] == "File:")
  {
  }

  /** The ten names are pairwise distinct, so a name determines the GUID it came from. */
  lemma NameDeterminesGuid(k: KnownGuids, a: Option<CString>, b: Option<CString>)
    requires GuidToName(k, a).Some?
    requires GuidToName(k, a) == GuidToName(k, b)
    ensures a == b
  {
  }

  /** ASCII upper-casing, `g_ascii_strup`. */
  function AsciiUpper(s: CString): (r: CString)
    ensures |r| == |s|
    ensures forall i :: 0 <= i < |s| ==>
      r[i] == if 'a' <= s[i] <= 'z' then (s[i] as int - 32) as char else s[i]
  {
    seq(|s|, i requires 0 <= i < |s| => if 'a' <= s[i] <= 'z' then (s[i] as int - 32) as char else s[i])
  }

  /** Matching is exact and case-sensitive: a known GUID that has a hex letter,
      written in uppercase, is not recognised. */
  lemma UppercaseGuidIsUnknown(k: KnownGuids, i: nat, j: nat)
    requires k.Lowercase()
    requires i < 10
    requires j < |k.Guids()[i]| && 'a' <= k.Guids()[i][j] <= 'f'
    ensures GuidToName(k, Some(AsciiUpper(k.Guids()[i]))).None?
  {
    var up := AsciiUpper(k.Guids()[i]);
    assert 'A' <= up[j] <= 'F';
    forall m | 0 <= m < 10
      ensures up != k.Guids()[m]
    {
      assert IsLowercaseGuid(k.Guids()[m]);
      assert up[j] != k.Guids()[m][j];
    }
    UnknownGuidsYieldNull(k, Some(up));
  }
}
