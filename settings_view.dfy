// The rules inside VoiceInk-ios/SettingsView.swift: which providers get a
// key entry, and when an entry shows the "key set" checkmark. The mode
// edits it shares with ModesView.swift are in ModeLists.
module SettingsList {
  import opened Base
  import opened Providers
  import opened Settings

  /** `Provider.allCases.filter { $0 != .local }`. */
  function WithoutLocal(ps: seq<Provider>): (r: seq<Provider>)
    ensures forall p :: p in r <==> p in ps && p != Local
  {
    if ps == [] then []
    else if ps[0] == Local then WithoutLocal(ps[1..])
    else [ps[0]] + WithoutLocal(ps[1..])
  }

  function KeyEntryProviders(): seq<Provider> {
    WithoutLocal(AllCases)
  }

  /** Every provider but the on-device one, in `allCases` order. */
  lemma KeyEntryProvidersInOrder()
    ensures KeyEntryProviders() == [Groq, OpenAI, Deepgram, Cerebras, Gemini, VoiceInk]
  {
  }

  /** The checkmark shows exactly when the stored key is non-empty, which
      never happens for VoiceInk. */
  function ShowsKeySet(keys: map<Provider, string>, p: Provider): (shown: bool)
    requires CloudProviders <= keys.Keys
    ensures IsCloud(p) ==> (shown <==> keys[p] != [])
    ensures p == VoiceInk ==> !shown
  {
    KeyFor(keys, p) != []
  }
}
