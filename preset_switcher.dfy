/** The preset selector (`PresetSwitcher`): a cyclic cursor over eleven preset names,
    whose actions set the synthesizer's tone, and whose position is kept under one key
    of the player-preferences store. */
module Presets {
  import opened Common
  import opened Synth

  /** The preset list, in display order (PresetSwitcher.cs:15-28). */
  const PresetNames: seq<string> := [
    "DistortedSaw", "CrunchySquare", "FrenchHouseBass", "TechnoBass", "DeepSubBass",
    "PiercingLead", "PunchyBass", "MetallicPluck", "DistortedSquareBass", "PercussiveBlip",
    "SmoothHouseBass"]

  /** The names the action dictionary maps (PresetSwitcher.cs:80-93). */
  const ActionNames: set<string> := {
    "DistortedSaw", "CrunchySquare", "FrenchHouseBass", "TechnoBass", "DeepSubBass",
    "PiercingLead", "PunchyBass", "MetallicPluck", "DistortedSquareBass", "PercussiveBlip",
    "SmoothHouseBass"}

  /** The preferences key the index is saved under. */
  const PresetKey := "SelectedPreset"

  /** Eleven distinct names, and each of them has an action: the "Unknown preset"
      branch of `ApplyPreset` cannot be taken once the actions are initialised. */
  lemma EveryNameHasAction()
    ensures |PresetNames| == 11
    ensures forall i, j :: 0 <= i < j < |PresetNames| ==> PresetNames[i] != PresetNames[j]
    ensures forall i :: 0 <= i < |PresetNames| ==> PresetNames[i] in ActionNames
    ensures forall n :: n in ActionNames ==> n in PresetNames
  {
  }

  /** `(i + 1) % count`: the next preset, wrapping from the last to the first. */
  function NextIndex(i: int, count: int): (r: int)
    requires 0 <= i < count
    ensures 0 <= r < count
    ensures r == if i == count - 1 then 0 else i + 1
  {
    (i + 1) % count
  }

  /** `(i - 1 + count) % count`: the previous preset, wrapping from the first to the last. */
  function PrevIndex(i: int, count: int): (r: int)
    requires 0 <= i < count
    ensures 0 <= r < count
    ensures r == if i == 0 then count - 1 else i - 1
  {
    (i - 1 + count) % count
  }

  /** Next and previous undo each other. */
  lemma NextPrevInverse(i: int, count: int)
    requires 0 <= i < count
    ensures PrevIndex(NextIndex(i, count), count) == i
    ensures NextIndex(PrevIndex(i, count), count) == i
  {
  }

  /** The index after `n` presses of the next button. */
  function Forward(i: int, count: int, n: nat): (r: int)
    requires 0 <= i < count
    ensures 0 <= r < count
    ensures r == (i + n) % count
    decreases n
  {
    if n == 0 then i else
      var r := NextIndex(Forward(i, count, n - 1), count);
      ModSucc(i + n - 1, count);
      r
  }

  /** `count` presses of the next button come back to the start. */
  lemma ForwardCycles(i: int, count: int)
    requires 0 <= i < count
    ensures Forward(i, count, count) == i
  {
    DivMod(1, i, count);
  }

  /** The index `LoadPreset` restores: a stored value clamped into the list; when nothing
      is stored the index stays `current` (the first preset, at start-up). */
  function LoadedIndex(prefs: map<string, int>, count: int, current: int): (r: int)
    requires 0 <= current < count
    ensures 0 <= r < count
    ensures PresetKey !in prefs ==> r == current
    ensures PresetKey in prefs ==>
      r == (if prefs[PresetKey] < 0 then 0 else if prefs[PresetKey] >= count then count - 1 else prefs[PresetKey])
  {
    if PresetKey in prefs then Clamp(prefs[PresetKey], 0, count - 1) else current
  }

  /** Loading what was saved gives the saved index back, whatever the current index. */
  lemma SaveThenLoad(prefs: map<string, int>, i: int, count: int, current: int)
    requires 0 <= i < count && 0 <= current < count
    ensures LoadedIndex(prefs[PresetKey := i], count, current) == i
  {
  }

  /** The tone a preset action sets, for the actions whose Synthesizer method is part of
      this model; None for the six whose method is not. */
  function KnownTone(name: string): (t: Option<Tone>)
    ensures t.Some? ==> name in ActionNames && InRange(t.value)
  {
    PresetsInRange();
    if name == "DistortedSaw" then Some(DistortedSawTone)
    else if name == "CrunchySquare" then Some(CrunchySquareTone)
    else if name == "FrenchHouseBass" then Some(FrenchHouseBassTone)
    else if name == "TechnoBass" then Some(TechnoBassTone)
    else if name == "DeepSubBass" then Some(DeepSubBassTone)
    else None
  }

  class PresetSwitcher {
    const synthesizer: Synthesizer?<real>
    const hasSynthVolume: bool
    const hasNameText: bool
    var currentPresetIndex: int
    /** The keys of the action dictionary; None before `InitializePresets`. */
    var presetActions: Option<set<string>>
    /** The text of the preset-name label. */
    var nameText: string
    /** The player-preferences store. */
    var prefs: map<string, int>
    /** The preset actions invoked so far, in order. */
    var invoked: seq<string>

    ghost predicate Valid()
      reads this
    {
      0 <= currentPresetIndex < |PresetNames|
    }

    /** What `ApplyPreset` does for the current index: when the name has an action, the
        action runs (setting the tone when its method is part of this model, and leaving
        the tone unconstrained otherwise), the label shows the name, and the index is
        saved; otherwise nothing changes. */
    twostate predicate Applied()
      reads this, synthesizer
      requires Valid() && synthesizer != null && presetActions.Some?
    {
      var name := PresetNames[currentPresetIndex];
      if name in presetActions.value then
        && invoked == old(invoked) + [name]
        && prefs == old(prefs)[PresetKey := currentPresetIndex]
        && nameText == (if hasNameText then name else old(nameText))
        && (KnownTone(name).Some? ==> synthesizer.tone == KnownTone(name).value)
      else
        && invoked == old(invoked) && prefs == old(prefs) && nameText == old(nameText)
        && synthesizer.tone == old(synthesizer.tone)
    }

    /** The inspector references and the stored preferences; the index starts at 0. */
    constructor (synthesizer: Synthesizer?<real>, hasSynthVolume: bool, hasNameText: bool, nameText: string, prefs: map<string, int>)
      ensures Valid() && currentPresetIndex == 0 && presetActions.None? && invoked == []
      ensures this.synthesizer == synthesizer && this.hasSynthVolume == hasSynthVolume && this.hasNameText == hasNameText
      ensures this.nameText == nameText && this.prefs == prefs
    {
      this.synthesizer := synthesizer;
      this.hasSynthVolume := hasSynthVolume;
      this.hasNameText := hasNameText;
      this.nameText := nameText;
      this.prefs := prefs;
      currentPresetIndex := 0;
      presetActions := None;
      invoked := [];
    }

    /** Without a synthesizer, volume script or name label nothing happens; otherwise the
        actions are initialised and the saved preset is loaded and applied. */
    method Start()
      requires Valid()
      modifies this`presetActions, this`currentPresetIndex, this`invoked, this`nameText, this`prefs
      modifies (if synthesizer == null then {} else {synthesizer})`tone
      ensures Valid()
      ensures synthesizer == null || !hasSynthVolume || !hasNameText ==> unchanged(this)
      ensures synthesizer != null && (!hasSynthVolume || !hasNameText) ==> synthesizer.tone == old(synthesizer.tone)
      ensures synthesizer != null ==>
        synthesizer.activeFrequencies == old(synthesizer.activeFrequencies) && synthesizer.phases == old(synthesizer.phases)
      ensures synthesizer != null && hasSynthVolume && hasNameText ==>
        && presetActions == Some(ActionNames)
        && currentPresetIndex == LoadedIndex(old(prefs), |PresetNames|, old(currentPresetIndex))
        && invoked == old(invoked) + [PresetNames[currentPresetIndex]]
        && prefs == old(prefs)[PresetKey := currentPresetIndex]
        && nameText == PresetNames[currentPresetIndex]
        && Applied()
    {
      if synthesizer == null || !hasSynthVolume || !hasNameText {
        return;
      }
      Launch();
    }

    /** The body of `Start` once every reference is present. */
    method Launch()
      requires Valid() && synthesizer != null && hasSynthVolume && hasNameText
      modifies this`presetActions, this`currentPresetIndex, this`invoked, this`nameText, this`prefs, synthesizer`tone
      ensures Valid()
      ensures presetActions == Some(ActionNames)
      ensures currentPresetIndex == LoadedIndex(old(prefs), |PresetNames|, old(currentPresetIndex))
      ensures invoked == old(invoked) + [PresetNames[currentPresetIndex]]
      ensures prefs == old(prefs)[PresetKey := currentPresetIndex]
      ensures nameText == PresetNames[currentPresetIndex]
      ensures Applied()
    {
      EveryNameHasAction();
      InitializePresets();
      LoadPreset();
      assert PresetNames[currentPresetIndex] in presetActions.value;
    }

    method InitializePresets()
      modifies this`presetActions
      ensures presetActions == Some(ActionNames)
    {
      presetActions := Some(ActionNames);
    }

    /** Run the action of the current preset. `synthVolume.OnPresetLoaded` is not modelled:
        it syncs the volume slider, whose listener writes the clamped value back into
        `masterVolume`, which is no change for volumes in [0, 1] (`PresetsInRange`). */
    method ApplyPreset()
      requires Valid() && synthesizer != null && hasSynthVolume && presetActions.Some?
      modifies this`invoked, this`nameText, this`prefs, synthesizer`tone
      ensures Applied()
    {
      var name := PresetNames[currentPresetIndex];
      if name in presetActions.value {
        Invoke(name);
        invoked := invoked + [name];
        UpdatePresetName();
        SavePreset();
      }
    }

    /** The dictionary's action for `name`, for the methods that are part of this model. */
    method Invoke(name: string)
      requires synthesizer != null
      modifies synthesizer`tone
      ensures KnownTone(name).Some? ==> synthesizer.tone == KnownTone(name).value
    {
      if name == "DistortedSaw" {
        synthesizer.DistortedSaw();
      } else if name == "CrunchySquare" {
        synthesizer.CrunchySquare();
      } else if name == "FrenchHouseBass" {
        synthesizer.FrenchHouseBass();
      } else if name == "TechnoBass" {
        synthesizer.TechnoBass();
      } else if name == "DeepSubBass" {
        synthesizer.DeepSubBass();
      }
    }

    method PreviousPreset()
      requires Valid() && synthesizer != null && hasSynthVolume && presetActions.Some?
      modifies this`currentPresetIndex, this`invoked, this`nameText, this`prefs, synthesizer`tone
      ensures Valid() && currentPresetIndex == PrevIndex(old(currentPresetIndex), |PresetNames|)
      ensures Applied()
    {
      currentPresetIndex := (currentPresetIndex - 1 + |PresetNames|) % |PresetNames|;
      ApplyPreset();
    }

    method NextPreset()
      requires Valid() && synthesizer != null && hasSynthVolume && presetActions.Some?
      modifies this`currentPresetIndex, this`invoked, this`nameText, this`prefs, synthesizer`tone
      ensures Valid() && currentPresetIndex == NextIndex(old(currentPresetIndex), |PresetNames|)
      ensures Applied()
    {
      currentPresetIndex := (currentPresetIndex + 1) % |PresetNames|;
      ApplyPreset();
    }

    method UpdatePresetName()
      requires Valid()
      modifies this`nameText
      ensures nameText == if hasNameText then PresetNames[currentPresetIndex] else old(nameText)
    {
      if hasNameText {
        nameText := PresetNames[currentPresetIndex];
      }
    }

    /** `PlayerPrefs.SetInt` and `Save`: the store holds the index under the preset key. */
    method SavePreset()
      modifies this`prefs
      ensures prefs == old(prefs)[PresetKey := currentPresetIndex]
    {
      prefs := prefs[PresetKey := currentPresetIndex];
    }

    method LoadPreset()
      requires Valid() && synthesizer != null && hasSynthVolume && presetActions.Some?
      modifies this`currentPresetIndex, this`invoked, this`nameText, this`prefs, synthesizer`tone
      ensures Valid() && currentPresetIndex == LoadedIndex(old(prefs), |PresetNames|, old(currentPresetIndex))
      ensures Applied()
    {
      if PresetKey in prefs {
        currentPresetIndex := prefs[PresetKey];
        currentPresetIndex := Clamp(currentPresetIndex, 0, |PresetNames| - 1);
        ApplyPreset();
      } else {
        ApplyPreset();
      }
    }
  }
}
