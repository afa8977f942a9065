// VoiceInk-ios/DefaultModeManager.swift: giving a first-time user one mode
// to record with.
module DefaultModes {
  import opened Base
  import opened Providers
  import opened Modes
  import opened Settings

  /** `createDefaultMode`: on-device transcription with the "base" model and
      post-processing off. The `promptTemplate:` argument of the source has
      no counterpart in `Mode` and is not modelled. */
  function DefaultMode(id: ModeId): (m: Mode)
    ensures m.id == id && m.name == "Default"
    ensures m.transcriptionProvider == Local && m.transcriptionModel == "base"
    ensures !m.isPostProcessingEnabled
    ensures m.postProcessingProvider == Groq && m.postProcessingModel == "llama-3.1-8b-instant"
    ensures m.transcriptionModel in Models(Local, Transcription)
  {
    NewMode(id, "Default", Local, Some("base"), false, Groq, Some("llama-3.1-8b-instant"), "")
  }

  /** The list and selection `ensureDefaultModeExists` leaves. */
  function WithDefaultMode(modes: seq<Mode>, selected: Option<ModeId>, freshId: ModeId): (r: (seq<Mode>, Option<ModeId>))
    ensures modes != [] ==> r == (modes, selected)
    ensures modes == [] ==> r.0 == [DefaultMode(freshId)] && r.1 == Some(freshId)
  {
    if modes != [] then (modes, selected)
    else ([DefaultMode(freshId)], Some(freshId))
  }

  /** A second call changes nothing, whatever identifier it would mint. */
  lemma WithDefaultModeIdempotent(modes: seq<Mode>, selected: Option<ModeId>, id1: ModeId, id2: ModeId)
    ensures var r := WithDefaultMode(modes, selected, id1);
      WithDefaultMode(r.0, r.1, id2) == r
  {
  }

  /** After the default mode is created, it is the one recordings use. */
  lemma DefaultModeIsEffective(freshId: ModeId)
    ensures var r := WithDefaultMode([], None, freshId);
      Effective(r.0, r.1) == SettingsOfMode(DefaultMode(freshId))
      && Effective(r.0, r.1).transcriptionProvider == Local
      && Effective(r.0, r.1).transcriptionModel == "base"
      && !Effective(r.0, r.1).isPostProcessingEnabled
  {
  }

  /** `ensureDefaultModeExists`; `freshId` stands for `UUID()`. */
  method EnsureDefaultModeExists(settings: AppSettings, freshId: ModeId)
    modifies settings
    ensures (settings.modes, settings.selectedModeId)
            == WithDefaultMode(old(settings.modes), old(settings.selectedModeId), freshId)
    ensures settings.apiKeys == old(settings.apiKeys) && settings.keyVerified == old(settings.keyVerified)
  {
    if settings.modes != [] {
      return;
    }
    var defaultMode := DefaultMode(freshId);
    settings.modes := settings.modes + [defaultMode];
    assert settings.modes == [defaultMode];
    settings.selectedModeId := Some(defaultMode.id);
  }
}
