// The edits ModesView.swift and SettingsView.swift make to `settings.modes`:
// replace the entry with a given id, append a new entry, and remove the
// entries at a set of offsets.
module ModeLists {
  import opened Base
  import opened Modes
  import opened Settings

  /** `modes.firstIndex(where: { $0.id == id })`. */
  function FirstIndexWithId(modes: seq<Mode>, id: ModeId): (r: Option<nat>)
    ensures r.None? <==> forall i :: 0 <= i < |modes| ==> modes[i].id != id
    ensures r.Some? ==> r.value < |modes| && modes[r.value].id == id
                        && forall j :: 0 <= j < r.value ==> modes[j].id != id
  {
    if modes == [] then None
    else if modes[0].id == id then Some(0)
    else
      var r := FirstIndexWithId(modes[1..], id);
      assert forall j :: 1 <= j < |modes| ==> modes[j] == modes[1..][j - 1];
      if r.Some? then Some(r.value + 1) else None
  }

  /** The index search and the `selectedMode` lookup find the same entry. */
  lemma FirstIndexAgreesWithLookup(modes: seq<Mode>, id: ModeId)
    ensures FirstIndexWithId(modes, id).Some? ==>
      FirstWithId(modes, id) == Some(modes[FirstIndexWithId(modes, id).value])
    ensures FirstIndexWithId(modes, id).None? <==> FirstWithId(modes, id).None?
  {
    var r := FirstIndexWithId(modes, id);
    if r.Some? {
      var m := FirstWithId(modes, id).value;
      var i :| 0 <= i < |modes| && modes[i] == m && m.id == id
               && forall j :: 0 <= j < i ==> modes[j].id != id;
      if i < r.value {
      } else if r.value < i {
      }
    }
  }

  /** The list after saving `updated` over the entry with `id`. */
  function ReplaceFirstWithId(modes: seq<Mode>, id: ModeId, updated: Mode): (r: seq<Mode>)
    ensures |r| == |modes|
    ensures FirstIndexWithId(modes, id).None? ==> r == modes
    ensures FirstIndexWithId(modes, id).Some? ==>
      var k := FirstIndexWithId(modes, id).value;
      r[k] == updated && forall i :: 0 <= i < |modes| && i != k ==> r[i] == modes[i]
  {
    match FirstIndexWithId(modes, id)
    case None => modes
    case Some(k) => modes[k := updated]
  }

  /** Only the first of several entries sharing an id is replaced. */
  lemma ReplaceLeavesLaterDuplicates(modes: seq<Mode>, id: ModeId, updated: Mode, j: nat)
    requires j < |modes| && modes[j].id == id
    requires exists i :: 0 <= i < j && modes[i].id == id
    ensures ReplaceFirstWithId(modes, id, updated)[j] == modes[j]
  {
  }

  /** `remove(atOffsets:)`: the entries whose offsets are not listed, in
      their original order. */
  function RemoveOffsets(modes: seq<Mode>, offsets: set<int>): (r: seq<Mode>)
    ensures |r| <= |modes|
    ensures forall m :: m in r ==> m in modes
    ensures forall i :: 0 <= i < |modes| && i in offsets ==> |r| < |modes|
  {
    if modes == [] then []
    else
      var last := |modes| - 1;
      RemoveOffsets(modes[..last], offsets) + (if last in offsets then [] else [modes[last]])
  }

  /** The offsets that survive a deletion, in increasing order. */
  function Kept(n: nat, offsets: set<int>): (ks: seq<nat>)
    ensures forall j :: 0 <= j < |ks| ==> ks[j] < n && ks[j] !in offsets
    ensures forall i :: 0 <= i < n && i !in offsets ==> i in ks
    ensures forall j, k :: 0 <= j < k < |ks| ==> ks[j] < ks[k]
  {
    if n == 0 then []
    else Kept(n - 1, offsets) + (if n - 1 in offsets then [] else [n - 1])
  }

  /** A deletion keeps exactly the entries at the surviving offsets, in order. */
  lemma {:induction false} RemoveOffsetsKeeps(modes: seq<Mode>, offsets: set<int>)
    ensures var ks := Kept(|modes|, offsets);
      |RemoveOffsets(modes, offsets)| == |ks|
      && forall j :: 0 <= j < |ks| ==> RemoveOffsets(modes, offsets)[j] == modes[ks[j]]
  {
    if modes != [] {
      var last := |modes| - 1;
      RemoveOffsetsKeeps(modes[..last], offsets);
      assert Kept(|modes[..last]|, offsets) == Kept(last, offsets);
    }
  }

  /** Deleting no offsets leaves the list as it was. */
  lemma {:induction false} RemoveNothing(modes: seq<Mode>)
    ensures RemoveOffsets(modes, {}) == modes
  {
    if modes != [] {
      RemoveNothing(modes[..|modes| - 1]);
      assert modes[..|modes| - 1] + [modes[|modes| - 1]] == modes;
    }
  }

  /** `settings.modes[index] = updatedMode` after the index search. */
  method UpdateMode(settings: AppSettings, id: ModeId, updated: Mode)
    modifies settings
    ensures settings.modes == ReplaceFirstWithId(old(settings.modes), id, updated)
    ensures settings.selectedModeId == old(settings.selectedModeId)
    ensures settings.apiKeys == old(settings.apiKeys) && settings.keyVerified == old(settings.keyVerified)
  {
    var index := FirstIndexWithId(settings.modes, id);
    if index.Some? {
      settings.modes := settings.modes[index.value := updated];
    }
  }

  /** `settings.modes.append(newMode)`. */
  method AppendMode(settings: AppSettings, m: Mode)
    modifies settings
    ensures settings.modes == old(settings.modes) + [m]
    ensures settings.selectedModeId == old(settings.selectedModeId)
    ensures settings.apiKeys == old(settings.apiKeys) && settings.keyVerified == old(settings.keyVerified)
  {
    settings.modes := settings.modes + [m];
  }

  /** `settings.modes.remove(atOffsets:)`: walks the list index by index and
      keeps each entry whose index is not among the offsets. */
  method DeleteModes(settings: AppSettings, offsets: set<int>)
    modifies settings
    ensures settings.modes == RemoveOffsets(old(settings.modes), offsets)
    ensures settings.selectedModeId == old(settings.selectedModeId)
    ensures settings.apiKeys == old(settings.apiKeys) && settings.keyVerified == old(settings.keyVerified)
  {
    var modes := settings.modes;
    var survivors: seq<Mode> := [];
    var i := 0;
    while i < |modes|
      invariant 0 <= i <= |modes|
      invariant survivors == RemoveOffsets(modes[..i], offsets)
    {
      assert modes[..i + 1][..i] == modes[..i];
      if i !in offsets {
        survivors := survivors + [modes[i]];
      }
      i := i + 1;
    }
    assert modes[..|modes|] == modes;
    settings.modes := survivors;
  }
}
