// VoiceInk-ios/AppSettings.swift: the mode list and selection, the
// per-provider API keys and verification flags, and the effective settings
// a recording is transcribed with. The keychain and user defaults behind
// the fields are an in-memory store here.
module Settings {
  import opened Base
  import opened Providers
  import opened Modes

  /** The hardcoded models of the VoiceInk back end. */
  const VoiceInkTranscriptionModel: string := "whisper-large-v3"
  const VoiceInkPostProcessingModel: string := "openai/gpt-oss-120b"

  const DefaultTranscriptionModel: string := "whisper-large-v3"
  const DefaultPostProcessingModel: string := "llama-3.1-8b-instant"

  /** The first mode carrying `id`, if any. */
  function FirstWithId(modes: seq<Mode>, id: ModeId): (r: Option<Mode>)
    ensures r.None? <==> forall i :: 0 <= i < |modes| ==> modes[i].id != id
    ensures r.Some? ==> exists i :: 0 <= i < |modes| && modes[i] == r.value
                          && r.value.id == id
                          && forall j :: 0 <= j < i ==> modes[j].id != id
  {
    if modes == [] then None
    else if modes[0].id == id then Some(modes[0])
    else
      var r := FirstWithId(modes[1..], id);
      if r.Some? then
        ghost var i :| 0 <= i < |modes[1..]| && modes[1..][i] == r.value && r.value.id == id
                       && forall j :: 0 <= j < i ==> modes[1..][j].id != id;
        assert modes[i + 1] == r.value;
        assert forall j :: 0 <= j < i + 1 ==> modes[j].id != id by {
          forall j | 0 <= j < i + 1 ensures modes[j].id != id {
            if j > 0 { assert modes[j] == modes[1..][j - 1]; }
          }
        }
        r
      else
        assert forall i :: 0 <= i < |modes| ==> modes[i].id != id by {
          forall i | 0 <= i < |modes| ensures modes[i].id != id {
            if i > 0 { assert modes[i] == modes[1..][i - 1]; }
          }
        }
        r
  }

  /** `selectedMode`: nothing without a selection. */
  function SelectedMode(modes: seq<Mode>, selectedModeId: Option<ModeId>): (r: Option<Mode>)
    ensures selectedModeId.None? ==> r.None?
    ensures selectedModeId.Some? ==> r == FirstWithId(modes, selectedModeId.value)
  {
    match selectedModeId
    case None => None
    case Some(id) => FirstWithId(modes, id)
  }

  /** The mode every `effective*` property reads: the selected one, else the
      first one, else none. */
  function EffectiveMode(modes: seq<Mode>, selectedModeId: Option<ModeId>): (r: Option<Mode>)
    ensures r.None? <==> modes == []
    ensures r.Some? ==> r.value in modes
    ensures SelectedMode(modes, selectedModeId).Some? ==> r == SelectedMode(modes, selectedModeId)
    ensures SelectedMode(modes, selectedModeId).None? && modes != [] ==> r == Some(modes[0])
  {
    var sel := SelectedMode(modes, selectedModeId);
    if sel.Some? then sel
    else if modes != [] then Some(modes[0])
    else None
  }

  /** Everything a background transcription reads from the settings. */
  datatype EffectiveSettings = EffectiveSettings(
    transcriptionProvider: Provider,
    transcriptionModel: string,
    postProcessingProvider: Provider,
    postProcessingModel: string,
    customPrompt: string,
    isPostProcessingEnabled: bool)

  /** The hard defaults used when no mode exists. */
  const DefaultEffectiveSettings: EffectiveSettings :=
    EffectiveSettings(Groq, DefaultTranscriptionModel, Groq, DefaultPostProcessingModel, "", false)

  /** The settings one mode yields; the VoiceInk back end overrides the
      stored model names with its own. */
  function SettingsOfMode(m: Mode): (e: EffectiveSettings)
    ensures e.transcriptionProvider == m.transcriptionProvider
    ensures e.postProcessingProvider == m.postProcessingProvider
    ensures e.customPrompt == m.customPrompt && e.isPostProcessingEnabled == m.isPostProcessingEnabled
    ensures e.transcriptionModel ==
      (if m.transcriptionProvider == VoiceInk then VoiceInkTranscriptionModel else m.transcriptionModel)
    ensures e.postProcessingModel ==
      (if m.postProcessingProvider == VoiceInk then VoiceInkPostProcessingModel else m.postProcessingModel)
  {
    EffectiveSettings(
      m.transcriptionProvider,
      if m.transcriptionProvider == VoiceInk then VoiceInkTranscriptionModel else m.transcriptionModel,
      m.postProcessingProvider,
      if m.postProcessingProvider == VoiceInk then VoiceInkPostProcessingModel else m.postProcessingModel,
      m.customPrompt,
      m.isPostProcessingEnabled)
  }

  /** The six `effective*` properties, read together. */
  function Effective(modes: seq<Mode>, selectedModeId: Option<ModeId>): (e: EffectiveSettings)
    ensures modes == [] ==> e == DefaultEffectiveSettings
    ensures modes != [] ==> e == SettingsOfMode(EffectiveMode(modes, selectedModeId).value)
  {
    match EffectiveMode(modes, selectedModeId)
    case Some(m) => SettingsOfMode(m)
    case None =>
      var provider := Groq;
      var ppProvider := Groq;
      EffectiveSettings(
        provider,
        if provider == VoiceInk then VoiceInkTranscriptionModel else DefaultTranscriptionModel,
        ppProvider,
        if ppProvider == VoiceInk then VoiceInkPostProcessingModel else DefaultPostProcessingModel,
        "",
        false)
  }

  /** A stale or missing selection falls back to the first mode, and a valid
      one wins over it, so selecting a mode changes what is used. */
  lemma SelectionDecides(modes: seq<Mode>, id: ModeId)
    requires modes != []
    ensures (forall i :: 0 <= i < |modes| ==> modes[i].id != id) ==>
      Effective(modes, Some(id)) == Effective(modes, None) == SettingsOfMode(modes[0])
    ensures modes[0].id == id ==> Effective(modes, Some(id)) == SettingsOfMode(modes[0])
    ensures (exists i :: 0 <= i < |modes| && modes[i].id == id) ==>
      Effective(modes, Some(id)) == SettingsOfMode(FirstWithId(modes, id).value)
  {
  }

  /** Whatever model a VoiceInk mode stores, its hardcoded models are used. */
  lemma VoiceInkForcesModels(m: Mode)
    requires m.transcriptionProvider == VoiceInk && m.postProcessingProvider == VoiceInk
    ensures SettingsOfMode(m).transcriptionModel == "whisper-large-v3"
    ensures SettingsOfMode(m).postProcessingModel == "openai/gpt-oss-120b"
  {
  }

  // ---------------------------------------------------------------------------
  // API keys and verification flags

  /** `apiKey(for:)` given the stored keys of the hosted back ends. */
  function KeyFor(keys: map<Provider, string>, p: Provider): (k: string)
    requires CloudProviders <= keys.Keys
    ensures p == Local ==> k == "local"
    ensures p == VoiceInk ==> k == []
    ensures IsCloud(p) ==> k == keys[p]
  {
    match p
    case Local => "local"
    case VoiceInk => ""
    case _ => keys[p]
  }

  /** The on-device back end never lacks a key; the VoiceInk back end always
      does (its key is still to be supplied). */
  lemma LocalKeyNeverEmpty(keys: map<Provider, string>)
    requires CloudProviders <= keys.Keys
    ensures KeyFor(keys, Local) != []
    ensures KeyFor(keys, VoiceInk) == []
  {
  }

  /** `isKeyVerified(for:)`; the on-device answer comes from the model
      manager and is passed in. */
  function Verified(keys: map<Provider, string>, flags: map<Provider, bool>, p: Provider,
                    localModelAvailable: bool): (v: bool)
    requires CloudProviders <= keys.Keys && CloudProviders <= flags.Keys
    ensures IsCloud(p) ==> (v <==> flags[p] && keys[p] != [])
    ensures p == Local ==> v == localModelAvailable
    ensures p == VoiceInk ==> v
  {
    match p
    case Local => localModelAvailable
    case VoiceInk => true
    case _ => flags[p] && keys[p] != []
  }

  /** The flag `setAPIKey` leaves, as written: the key is stored first, so
      the comparison meant to detect a change compares the new key with
      itself. */
  function FlagAfterSetAsWritten(oldKey: string, newKey: string, oldFlag: bool): (f: bool)
    ensures f == oldFlag
  {
    var stored := newKey;
    if stored != newKey then false else oldFlag
  }

  /** The flag `setAPIKey` is meant to leave: a changed key is unverified. */
  function FlagAfterSet(oldKey: string, newKey: string, oldFlag: bool): (f: bool)
    ensures f <==> oldFlag && oldKey == newKey
  {
    if oldKey != newKey then false else oldFlag
  }

  /** Replacing a verified key by a different one keeps the old verification
      as written, but drops it once the comparison uses the old key. */
  lemma SetAPIKeyKeepsStaleVerification()
    ensures FlagAfterSetAsWritten("a", "b", true)
    ensures !FlagAfterSet("a", "b", true)
  {
  }

  class AppSettings {
    var modes: seq<Mode>
    var selectedModeId: Option<ModeId>
    var apiKeys: map<Provider, string>
    var keyVerified: map<Provider, bool>

    /** Keys and flags are stored for exactly the hosted back ends. */
    predicate Valid()
      reads this
    {
      apiKeys.Keys == CloudProviders && keyVerified.Keys == CloudProviders
    }

    /** The state `init` loads from the store, passed in. */
    constructor(modes: seq<Mode>, selectedModeId: Option<ModeId>,
                apiKeys: map<Provider, string>, keyVerified: map<Provider, bool>)
      requires apiKeys.Keys == CloudProviders && keyVerified.Keys == CloudProviders
      ensures Valid()
      ensures this.modes == modes && this.selectedModeId == selectedModeId
      ensures this.apiKeys == apiKeys && this.keyVerified == keyVerified
    {
      this.modes := modes;
      this.selectedModeId := selectedModeId;
      this.apiKeys := apiKeys;
      this.keyVerified := keyVerified;
    }

    function ApiKey(p: Provider): string
      reads this
      requires Valid()
    {
      KeyFor(apiKeys, p)
    }

    function IsKeyVerified(p: Provider, localModelAvailable: bool): bool
      reads this
      requires Valid()
    {
      Verified(apiKeys, keyVerified, p, localModelAvailable)
    }

    function CurrentEffective(): EffectiveSettings
      reads this
    {
      Effective(modes, selectedModeId)
    }

    /** `setAPIKey` as written: only the provider's key changes, and its flag
        survives even a changed key. */
    method SetAPIKeyAsWritten(key: string, p: Provider)
      requires Valid()
      modifies this
      ensures Valid()
      ensures IsCloud(p) ==> apiKeys == old(apiKeys)[p := key]
      ensures !IsCloud(p) ==> apiKeys == old(apiKeys)
      ensures keyVerified == old(keyVerified)
      ensures modes == old(modes) && selectedModeId == old(selectedModeId)
    {
      if IsCloud(p) {
        var oldKey := apiKeys[p];
        apiKeys := apiKeys[p := key];
        keyVerified := keyVerified[p := FlagAfterSetAsWritten(oldKey, key, keyVerified[p])];
      }
    }

    /** `setAPIKey` with the change check made against the previous key:
        a different key is no longer verified; the on-device and VoiceInk
        back ends are left alone. */
    method SetAPIKey(key: string, p: Provider)
      requires Valid()
      modifies this
      ensures Valid()
      ensures IsCloud(p) ==> apiKeys == old(apiKeys)[p := key]
      ensures IsCloud(p) ==> keyVerified == old(keyVerified)[p := old(keyVerified[p]) && old(apiKeys[p]) == key]
      ensures !IsCloud(p) ==> apiKeys == old(apiKeys) && keyVerified == old(keyVerified)
      ensures modes == old(modes) && selectedModeId == old(selectedModeId)
    {
      if IsCloud(p) {
        var oldKey := apiKeys[p];
        apiKeys := apiKeys[p := key];
        keyVerified := keyVerified[p := FlagAfterSet(oldKey, key, keyVerified[p])];
      }
    }

    /** `setKeyVerified`: a no-op for the on-device and VoiceInk back ends. */
    method SetKeyVerified(verified: bool, p: Provider)
      requires Valid()
      modifies this
      ensures Valid()
      ensures IsCloud(p) ==> keyVerified == old(keyVerified)[p := verified]
      ensures !IsCloud(p) ==> keyVerified == old(keyVerified)
      ensures apiKeys == old(apiKeys) && modes == old(modes) && selectedModeId == old(selectedModeId)
    {
      if IsCloud(p) {
        keyVerified := keyVerified[p := verified];
      }
    }
  }
}
