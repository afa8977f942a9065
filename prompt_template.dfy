// VoiceInk-ios/PromptTemplate.swift: the canned post-processing
// instructions and the custom one.
module PromptTemplates {
  import opened Base

  datatype PromptTemplateType = Custom | Summary | KeyPoints | Rewrite | TranscriptCleanup

  const AllTemplateTypes: seq<PromptTemplateType> := [Custom, Summary, KeyPoints, Rewrite, TranscriptCleanup]

  function RawValue(t: PromptTemplateType): string {
    match t
    case Custom => "Custom"
    case Summary => "Summary"
    case KeyPoints => "Key Points"
    case Rewrite => "Rewrite"
    case TranscriptCleanup => "Clean Transcript"
  }

  /** The name shown in the picker: never empty, and no two kinds share one. */
  function DisplayName(t: PromptTemplateType): (s: string)
    ensures s != []
    ensures forall u :: RawValue(u) == s ==> u == t
  {
    RawValue(t)
  }

  /** Every canned instruction opens with this word. */
  const Please: string := "Please "

  /** What each canned template asks for, after the opening word. */
  function Instruction(t: PromptTemplateType): string {
    match t
    case Custom => ""
    case Summary => "provide a concise summary of the following transcription, capturing the main points and key information in a clear and organized manner:"
    case KeyPoints => "extract the key points from the following transcription and present them as a bulleted list, highlighting the most important information:"
    case Rewrite => "rewrite the following transcription to improve clarity, grammar, and flow while preserving the original meaning and intent:"
    case TranscriptCleanup => "clean up the following transcription by correcting any errors, removing filler words, and improving readability while maintaining the speaker's original meaning and tone:"
  }

  /** `PromptTemplateType.prompt`: empty for the custom type (its text lives
      in the template), a polite instruction for every other type. */
  function TemplatePrompt(t: PromptTemplateType): (r: string)
    ensures t == Custom <==> r == []
    ensures t != Custom ==> StartsWith(r, Please)
  {
    if t == Custom then ""
    else
      PrefixOfConcat(Please, Instruction(t));
      Please + Instruction(t)
  }

  /** The template's own identifier (`UUID()`) plays no part in any
      computation and is left out. */
  datatype PromptTemplate = PromptTemplate(kind: PromptTemplateType, customPrompt: string)

  /** The custom template uses the user's text; every other template its
      canned instruction, whatever custom text it carries. */
  function EffectivePrompt(t: PromptTemplate): (p: string)
    ensures t.kind == Custom ==> p == t.customPrompt
    ensures t.kind != Custom ==> p == TemplatePrompt(t.kind) && p != []
  {
    match t.kind
    case Custom => t.customPrompt
    case _ => TemplatePrompt(t.kind)
  }

  /** The list label: the display name, or for a custom template a marker
      for an empty prompt and otherwise its first 50 characters followed by
      an ellipsis (always appended, even to a shorter prompt). */
  function Description(t: PromptTemplate): (d: string)
    ensures t.kind != Custom ==> d == DisplayName(t.kind)
    ensures t.kind == Custom && t.customPrompt == [] ==> d == "Custom prompt (empty)"
    ensures t.kind == Custom && t.customPrompt != [] ==>
      StartsWith(d, "Custom: ") && EndsWith(d, "...")
      && |d| == 8 + Min(50, |t.customPrompt|) + 3
      && d[8..|d| - 3] == t.customPrompt[..Min(50, |t.customPrompt|)]
  {
    match t.kind
    case Custom =>
      if t.customPrompt == [] then "Custom prompt (empty)"
      else "Custom: " + Prefix(t.customPrompt, 50) + "..."
    case _ => DisplayName(t.kind)
  }

  function Min(a: int, b: int): int {
    if a <= b then a else b
  }

  /** `prefix(n)`: at most the first `n` characters. */
  function Prefix(s: string, n: nat): (r: string)
    ensures |r| == Min(n, |s|) && r == s[..|r|]
  {
    if |s| <= n then s else s[..n]
  }

  /** Any text opening with the polite word is non-blank. */
  lemma PoliteTextNotBlank(rest: string)
    ensures !IsBlank(Please + rest)
  {
    PrefixOfConcat(Please, rest);
    assert !IsWhitespace(Please[0]) by {
      assert Please[0] == 'P';
    }
    LeadingTextNotBlank(Please + rest, Please);
  }

  /** The effective prompt of a canned template is non-blank, so choosing one
      always turns post-processing on when it is enabled. */
  lemma CannedPromptsAreNotBlank(k: PromptTemplateType)
    requires k != Custom
    ensures !IsBlank(EffectivePrompt(PromptTemplate(k, "")))
  {
    var rest := Instruction(k);
    PoliteTextNotBlank(rest);
    assert EffectivePrompt(PromptTemplate(k, "")) == Please + rest;
  }

  /** Raw values are distinct, so they identify the template type. */
  lemma RawValuesDistinct(a: PromptTemplateType, b: PromptTemplateType)
    ensures a != b ==> RawValue(a) != RawValue(b)
  {
  }
}
