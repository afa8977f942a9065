// VoiceInk-ios/ProviderAPIKeyView.swift: entering, checking and saving one
// back end's API key, and the masked form a saved key is shown in.
module ProviderKeyView {
  import opened Base
  import opened Http
  import opened Providers
  import opened Settings
  import ServiceFactory
  import MultipartClient
  import QueryParameterClient
  import OpenAIClient

  const Bullet: char := '\U{2022}'

  /** `String(repeating: "•", count: n)`. */
  function Bullets(n: nat): (s: string)
    ensures |s| == n && forall i :: 0 <= i < n ==> s[i] == Bullet
  {
    if n == 0 then [] else Bullets(n - 1) + [Bullet]
  }

  /** How many final characters a long key shows: up to four, never
      reaching back into the first four. */
  function SuffixCount(count: int): (n: int)
    ensures 0 <= n <= 4
    ensures count >= 8 ==> n == 4
  {
    var rest := if count - 4 >= 0 then count - 4 else 0;
    if 4 <= rest then 4 else rest
  }

  /** The masked form of a trimmed, non-empty key: only bullets for a key
      of at most six characters, otherwise the first four characters, at
      least four bullets and the last few characters. */
  function Mask(key: string): (r: string)
    requires key != []
    ensures |r| >= |key|
  {
    var count := |key|;
    if count <= 6 then Bullets(count)
    else
      var suffixCount := SuffixCount(count);
      var middleCount := if count - 4 - suffixCount >= 4 then count - 4 - suffixCount else 4;
      key[..4] + Bullets(middleCount) + key[count - suffixCount..]
  }

  /** `obfuscatedKey()`: nothing for a blank key, otherwise the mask of the
      trimmed key. */
  function ObfuscatedKey(stored: string): (r: Option<string>)
    ensures r.None? <==> IsBlank(stored)
    ensures r.Some? ==> r.value == Mask(Trim(stored))
  {
    var key := Trim(stored);
    if key == [] then None else Some(Mask(key))
  }

  /** A masked key shows at most eight of the key's characters: a short key
      shows none; a long one shows exactly its first four and its last
      three or four characters, with at least four bullets, and at least
      as many bullets as characters it hides, between them. */
  lemma MaskRevealsLittle(key: string)
    requires key != []
    ensures var shown := Mask(key); var n := SuffixCount(|key|);
      && (|key| <= 6 ==> |shown| == |key| && forall i :: 0 <= i < |shown| ==> shown[i] == Bullet)
      && (|key| > 6 ==>
            && 3 <= n
            && shown[..4] == key[..4]
            && shown[|shown| - n..] == key[|key| - n..]
            && |shown| - n - 4 >= 4
            && |shown| - n - 4 >= |key| - n - 4
            && (forall i :: 4 <= i < |shown| - n ==> shown[i] == Bullet))
  {
    var shown := Mask(key);
    if |key| > 6 {
      var n := SuffixCount(|key|);
      var middleCount := if |key| - 4 - n >= 4 then |key| - 4 - n else 4;
      var b := Bullets(middleCount);
      assert shown == key[..4] + b + key[|key| - n..];
      assert shown[..4] == key[..4];
      assert shown[|shown| - n..] == key[|key| - n..];
      forall i | 4 <= i < |shown| - n
        ensures shown[i] == Bullet
      {
        assert shown[i] == b[i - 4];
      }
    }
  }

  /** The three credential checks the view can run. */
  datatype KeyCheck = DeepgramCheck | OpenAICompatibleCheck | GroqCheck

  /** Which check runs for a back end: Deepgram's own, the OpenAI-compatible
      one for Gemini, OpenAI and Cerebras, and Groq's for the rest. */
  function CheckFor(p: Provider): (c: KeyCheck)
    ensures c == DeepgramCheck <==> p == Deepgram
    ensures c == OpenAICompatibleCheck <==> p in {Gemini, OpenAI, Cerebras}
  {
    match p
    case Deepgram => DeepgramCheck
    case Gemini => OpenAICompatibleCheck
    case OpenAI => OpenAICompatibleCheck
    case Cerebras => OpenAICompatibleCheck
    case _ => GroqCheck
  }

  /** The answer of the chosen check for `key` at the back end's base URL. */
  function CheckKey(exchange: Exchange, p: Provider, key: string): bool
    requires p != VoiceInk
  {
    match CheckFor(p)
    case DeepgramCheck => QueryParameterClient.VerifyAPIKey(exchange, BaseURL(p), key)
    case OpenAICompatibleCheck => OpenAIClient.VerifyAPIKey(exchange, BaseURL(p), key)
    case GroqCheck => MultipartClient.VerifyAPIKey(exchange, BaseURL(p), key)
  }

  /** Groq's check and the OpenAI-compatible one send the same bearer probe
      of `/v1/models`, so the outcome depends only on whether the back end
      uses the query-parameter client to transcribe: the key check follows
      the transcription routing. */
  lemma CheckFollowsTranscriptionClient(exchange: Exchange, p: Provider, key: string)
    requires p != VoiceInk
    ensures ServiceFactory.ServiceFor(p) == ServiceFactory.QueryParameterService ==>
      CheckKey(exchange, p, key) == QueryParameterClient.VerifyAPIKey(exchange, BaseURL(p), key)
    ensures ServiceFactory.ServiceFor(p) != ServiceFactory.QueryParameterService ==>
      CheckKey(exchange, p, key) == MultipartClient.VerifyAPIKey(exchange, BaseURL(p), key)
  {
  }

  /** The key a check is run on: the trimmed entry, or the saved key when
      the entry is blank. */
  function KeyToVerify(tempKey: string, saved: string): (k: string)
    ensures !IsBlank(tempKey) ==> k == Trim(tempKey) && k != []
    ensures IsBlank(tempKey) ==> k == saved
  {
    var entered := Trim(tempKey);
    if entered == [] then saved else entered
  }

  /** The editing state of the view for one back end. */
  class ProviderAPIKeyView {
    const provider: Provider
    const settings: AppSettings
    var tempKey: string
    var isVerifying: bool
    var verifyResult: Option<bool>
    var editingKey: bool

    predicate Valid()
      reads this, settings
    {
      settings.Valid() && provider != VoiceInk
    }

    constructor(provider: Provider, settings: AppSettings)
      requires settings.Valid() && provider != VoiceInk
      ensures Valid() && this.provider == provider && this.settings == settings
      ensures tempKey == [] && !isVerifying && verifyResult.None? && editingKey
    {
      this.provider := provider;
      this.settings := settings;
      tempKey := [];
      isVerifying := false;
      verifyResult := None;
      editingKey := true;
    }

    function CurrentAPIKey(): string
      reads this, settings
      requires Valid()
    {
      settings.ApiKey(provider)
    }

    /** Save is enabled only for a key that is not blank. */
    predicate SaveEnabled()
      reads this
    {
      !IsBlank(tempKey)
    }

    /** Verify is enabled when there is an entry or a saved key to check. */
    predicate VerifyEnabled()
      reads this, settings
      requires Valid()
    {
      !(IsBlank(tempKey) && CurrentAPIKey() == [])
    }

    /** `onAppear`: the entry shows the saved key, and editing is offered
        unless the key is verified. */
    method Appear(localModelAvailable: bool)
      requires Valid()
      modifies this
      ensures Valid()
      ensures tempKey == CurrentAPIKey() && verifyResult.None?
      ensures editingKey == !settings.IsKeyVerified(provider, localModelAvailable)
      ensures isVerifying == old(isVerifying)
    {
      tempKey := CurrentAPIKey();
      editingKey := !settings.IsKeyVerified(provider, localModelAvailable);
      verifyResult := None;
    }

    /** `onChange(of: tempKey)`: an edit clears the last check's result. */
    method EditKey(newKey: string)
      modifies this
      ensures tempKey == newKey && verifyResult.None?
      ensures isVerifying == old(isVerifying) && editingKey == old(editingKey)
    {
      tempKey := newKey;
      verifyResult := None;
    }

    /** `saveKey`: the entry is stored as typed. */
    method SaveKey()
      requires Valid() && SaveEnabled()
      modifies settings
      ensures Valid()
      ensures IsCloud(provider) ==> settings.apiKeys == old(settings.apiKeys)[provider := tempKey]
      ensures IsCloud(provider) ==>
        settings.keyVerified == old(settings.keyVerified)[provider := FlagAfterSet(old(settings.apiKeys[provider]), tempKey, old(settings.keyVerified[provider]))]
      ensures !IsCloud(provider) ==>
        settings.apiKeys == old(settings.apiKeys) && settings.keyVerified == old(settings.keyVerified)
      ensures settings.modes == old(settings.modes) && settings.selectedModeId == old(settings.selectedModeId)
    {
      settings.SetAPIKey(tempKey, provider);
    }

    /** `verifyKey`: the chosen check runs on the entry or the saved key; a
        passing check stores a non-blank entry, marks the key verified and
        closes the editor, and a failing one changes only the result. */
    method VerifyKey(exchange: Exchange) returns (ok: bool)
      requires Valid()
      modifies this, settings
      ensures Valid()
      ensures ok == CheckKey(exchange, provider, KeyToVerify(old(tempKey), old(CurrentAPIKey())))
      ensures verifyResult == Some(ok) && !isVerifying && tempKey == old(tempKey)
      ensures !ok ==> editingKey == old(editingKey) && unchanged(settings)
      ensures ok ==> !editingKey
      ensures ok && IsCloud(provider) ==> settings.keyVerified == old(settings.keyVerified)[provider := true]
      ensures ok && IsCloud(provider) && !IsBlank(old(tempKey)) ==>
        settings.apiKeys == old(settings.apiKeys)[provider := Trim(old(tempKey))]
      ensures IsBlank(old(tempKey)) || !IsCloud(provider) ==> settings.apiKeys == old(settings.apiKeys)
      ensures settings.modes == old(settings.modes) && settings.selectedModeId == old(settings.selectedModeId)
    {
      isVerifying := true;
      var entered := Trim(tempKey);
      var keyToVerify := if entered == [] then CurrentAPIKey() else entered;
      ok := CheckKey(exchange, provider, keyToVerify);
      verifyResult := Some(ok);
      isVerifying := false;
      if ok {
        AcceptKey(entered);
        editingKey := false;
      }
    }

    /** Lines 112-116: a passing check stores a non-empty entry and marks
        the key verified. */
    method AcceptKey(entered: string)
      requires Valid()
      modifies settings
      ensures Valid()
      ensures IsCloud(provider) ==> settings.keyVerified == old(settings.keyVerified)[provider := true]
      ensures IsCloud(provider) && entered != [] ==> settings.apiKeys == old(settings.apiKeys)[provider := entered]
      ensures entered == [] || !IsCloud(provider) ==> settings.apiKeys == old(settings.apiKeys)
      ensures !IsCloud(provider) ==> settings.keyVerified == old(settings.keyVerified)
      ensures settings.modes == old(settings.modes) && settings.selectedModeId == old(settings.selectedModeId)
    {
      if entered != [] {
        settings.SetAPIKey(entered, provider);
      }
      settings.SetKeyVerified(true, provider);
    }

    /** The "Change" button: editing reopens on the saved key, which is no
        longer verified. */
    method Change()
      requires Valid()
      modifies this, settings
      ensures Valid()
      ensures editingKey && verifyResult.None? && tempKey == old(CurrentAPIKey())
      ensures settings.apiKeys == old(settings.apiKeys)
      ensures IsCloud(provider) ==> settings.keyVerified == old(settings.keyVerified)[provider := false]
      ensures !IsCloud(provider) ==> settings.keyVerified == old(settings.keyVerified)
      ensures IsCloud(provider) ==> !settings.IsKeyVerified(provider, false)
      ensures settings.modes == old(settings.modes) && settings.selectedModeId == old(settings.selectedModeId)
      ensures isVerifying == old(isVerifying)
    {
      editingKey := true;
      verifyResult := None;
      tempKey := CurrentAPIKey();
      settings.SetKeyVerified(false, provider);
    }
  }

  /** After a passing check of a non-blank entry, the hosted back end counts
      as verified, whichever flag it had and whatever key was saved. */
  lemma PassingCheckVerifies(keys: map<Provider, string>, flags: map<Provider, bool>, p: Provider, entry: string)
    requires keys.Keys == CloudProviders && flags.Keys == CloudProviders && IsCloud(p)
    requires !IsBlank(entry)
    ensures Verified(keys[p := Trim(entry)], flags[p := true], p, false)
  {
    var t := Trim(entry);
    assert t != [];
  }
}
