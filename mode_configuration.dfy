// The rules inside VoiceInk-ios/ModeConfigurationView.swift: which
// providers the pickers offer, how a provider change resets the model, and
// when saving is allowed.
module ModeConfiguration {
  import opened Base
  import opened Providers
  import opened Modes
  import opened Settings

  /** Whether a provider may be picked for a capability: VoiceInk always,
      any other provider when it offers such models and is verified. */
  function Offered(p: Provider, t: ModelType, verified: bool): (b: bool)
    ensures p == VoiceInk ==> b
    ensures b && p != VoiceInk ==> verified && Models(p, t) != []
    ensures verified && Models(p, t) != [] ==> b
  {
    p == VoiceInk || (Models(p, t) != [] && verified)
  }

  /** Provider lists in `allCases` order. */
  predicate InCaseOrder(ps: seq<Provider>) {
    forall i, j :: 0 <= i < j < |ps| ==> Index(ps[i]) < Index(ps[j])
  }

  /** `filter` over a list of providers, keeping those in `keep`. */
  function Filter(ps: seq<Provider>, keep: set<Provider>): (r: seq<Provider>)
    ensures forall p :: p in r <==> p in ps && p in keep
    ensures InCaseOrder(ps) ==> InCaseOrder(r)
  {
    if ps == [] then []
    else
      var rest := Filter(ps[1..], keep);
      if ps[0] in keep then
        FilterHeadFirst(ps, rest);
        [ps[0]] + rest
      else
        assert InCaseOrder(ps) ==> InCaseOrder(ps[1..]) by {
          if InCaseOrder(ps) {
            forall i, j | 0 <= i < j < |ps[1..]| ensures Index(ps[1..][i]) < Index(ps[1..][j]) {
              assert ps[1..][i] == ps[i + 1] && ps[1..][j] == ps[j + 1];
            }
          }
        }
        rest
  }

  /** Prepending the head of an ordered list to an ordered selection of its
      tail keeps the order. */
  lemma FilterHeadFirst(ps: seq<Provider>, rest: seq<Provider>)
    requires ps != [] && forall q :: q in rest ==> q in ps[1..]
    requires InCaseOrder(ps) ==> InCaseOrder(rest)
    ensures InCaseOrder(ps) ==> InCaseOrder([ps[0]] + rest)
  {
    if InCaseOrder(ps) {
      var r := [ps[0]] + rest;
      forall i, j | 0 <= i < j < |r| ensures Index(r[i]) < Index(r[j]) {
        if i == 0 {
          assert r[j] == rest[j - 1] && rest[j - 1] in rest;
          var k :| 0 <= k < |ps[1..]| && ps[1..][k] == r[j];
          assert ps[k + 1] == r[j];
        } else {
          assert r[i] == rest[i - 1] && r[j] == rest[j - 1];
        }
      }
    }
  }

  /** The providers the pickers list, in `allCases` order. */
  function AvailableProviders(t: ModelType, keys: map<Provider, string>,
                              flags: map<Provider, bool>, localModelAvailable: bool): (r: seq<Provider>)
    requires CloudProviders <= keys.Keys && CloudProviders <= flags.Keys
    ensures VoiceInk in r
    ensures forall p :: p in r ==> Offered(p, t, Verified(keys, flags, p, localModelAvailable))
  {
    Filter(AllCases, set p | p in AllCases && Offered(p, t, Verified(keys, flags, p, localModelAvailable)))
  }

  lemma AllCasesInOrder()
    ensures InCaseOrder(AllCases)
  {
    forall i | 0 <= i < |AllCases| ensures Index(AllCases[i]) == i {
      if i == 0 {
      } else if i == 1 {
      } else if i == 2 {
      } else if i == 3 {
      } else if i == 4 {
      } else if i == 5 {
      } else {
        assert i == 6;
      }
    }
  }

  /** VoiceInk is always offered, and any other provider exactly when it has
      models for the capability and a verified key; the list follows
      `allCases` order. */
  lemma AvailableProvidersSound(t: ModelType, keys: map<Provider, string>,
                                flags: map<Provider, bool>, localModelAvailable: bool)
    requires CloudProviders <= keys.Keys && CloudProviders <= flags.Keys
    ensures var r := AvailableProviders(t, keys, flags, localModelAvailable);
      (forall p :: p in r <==>
         p == VoiceInk || (Models(p, t) != [] && Verified(keys, flags, p, localModelAvailable)))
      && InCaseOrder(r)
  {
    AllCasesInOrder();
  }

  /** Neither the on-device back end nor Deepgram is offered for
      post-processing, whatever is verified. */
  lemma NoPostProcessingWithoutModels(keys: map<Provider, string>,
                                      flags: map<Provider, bool>, localModelAvailable: bool)
    requires CloudProviders <= keys.Keys && CloudProviders <= flags.Keys
    ensures Local !in AvailableProviders(PostProcessing, keys, flags, localModelAvailable)
    ensures Deepgram !in AvailableProviders(PostProcessing, keys, flags, localModelAvailable)
  {
  }

  /** The model kept after switching to `p`: VoiceInk's hardcoded model, the
      current model if `p` offers it, else `p`'s first model, else "". */
  function ResetModel(p: Provider, t: ModelType, current: string): (m: string)
    ensures p == VoiceInk ==>
      m == (if t == Transcription then VoiceInkTranscriptionModel else VoiceInkPostProcessingModel)
    ensures p != VoiceInk && Models(p, t) != [] ==> m in Models(p, t)
    ensures p != VoiceInk && Models(p, t) == [] ==> m == ""
    ensures p != VoiceInk && current in Models(p, t) ==> m == current
  {
    if p == VoiceInk then
      if t == Transcription then VoiceInkTranscriptionModel else VoiceInkPostProcessingModel
    else if current in Models(p, t) then current
    else if Models(p, t) != [] then Models(p, t)[0]
    else ""
  }

  /** Resetting twice changes nothing more. */
  lemma ResetModelIdempotent(p: Provider, t: ModelType, current: string)
    ensures ResetModel(p, t, ResetModel(p, t, current)) == ResetModel(p, t, current)
  {
  }

  /** Save stays disabled exactly while the name is blank. */
  function SaveDisabled(name: string): (disabled: bool)
    ensures disabled <==> AllWhitespace(name)
  {
    BlankIffAllWhitespace(name);
    Trim(name) == []
  }

  /** The mode being edited, as the view's `@State` holds it. */
  class ModeEditor {
    var mode: Mode

    /** A new mode starts with an empty name and every default. */
    constructor(existing: Option<Mode>, freshId: ModeId)
      ensures existing.Some? ==> mode == existing.value
      ensures existing.None? ==> mode == NewMode(freshId, "", Groq, None, false, Groq, None, "")
    {
      mode := match existing
        case Some(m) => m
        case None => NewMode(freshId, "", Groq, None, false, Groq, None, "");
    }

    /** `onChange(of: mode.transcriptionProvider)`. */
    method OnTranscriptionProviderChange()
      modifies this
      ensures mode == old(mode).(transcriptionModel :=
        ResetModel(old(mode).transcriptionProvider, Transcription, old(mode).transcriptionModel))
    {
      if mode.transcriptionProvider == VoiceInk {
        mode := mode.(transcriptionModel := VoiceInkTranscriptionModel);
      } else {
        var availableModels := Models(mode.transcriptionProvider, Transcription);
        if mode.transcriptionModel !in availableModels {
          mode := mode.(transcriptionModel := if availableModels != [] then availableModels[0] else "");
        }
      }
    }

    /** `onChange(of: mode.postProcessingProvider)`. */
    method OnPostProcessingProviderChange()
      modifies this
      ensures mode == old(mode).(postProcessingModel :=
        ResetModel(old(mode).postProcessingProvider, PostProcessing, old(mode).postProcessingModel))
    {
      if mode.postProcessingProvider == VoiceInk {
        mode := mode.(postProcessingModel := VoiceInkPostProcessingModel);
      } else {
        var availableModels := Models(mode.postProcessingProvider, PostProcessing);
        if mode.postProcessingModel !in availableModels {
          mode := mode.(postProcessingModel := if availableModels != [] then availableModels[0] else "");
        }
      }
    }
  }
}
