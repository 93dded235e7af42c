/**
 * The closed set of LLM providers (`ProviderID`) and its wire-name codec:
 * `Display` renders a provider as its lower-case name, `FromStr` parses such a
 * name back and rejects every other string.
 */
module ProviderIds {
  import opened Wrappers

  datatype ProviderId = OpenAI | Cohere | AI21 | AzureOpenAI | Anthropic | Mistral | GoogleAiStudio

  /** Every provider, in declaration order. */
  const AllProviders: seq<ProviderId> :=
    [OpenAI, Cohere, AI21, AzureOpenAI, Anthropic, Mistral, GoogleAiStudio]

  /** Characters that can occur in a wire name: lower-case letters, digits and `_`. */
  predicate IsWireChar(c: char) {
    'a' <= c <= 'z' || '0' <= c <= '9' || c == '_'
  }

  predicate IsWireName(s: string) {
    |s| > 0 && forall i :: 0 <= i < |s| ==> IsWireChar(s[i])
  }

  /** `Display for ProviderID`: the provider's wire name. */
  function ToStr(p: ProviderId): (s: string)
    ensures IsWireName(s)
  {
    match p
    case OpenAI => "openai"
    case Cohere => "cohere"
    case AI21 => "ai21"
    case AzureOpenAI => "azure_openai"
    case Anthropic => "anthropic"
    case Mistral => "mistral"
    case GoogleAiStudio => "google_ai_studio"
  }

  /** `ParseError`, carrying the message shown to the user. */
  datatype ParseError = ParseError(message: string)

  /** `FromStr for ProviderID`: exact, case-sensitive match against the seven wire names. */
  function Parse(s: string): (r: Result<ProviderId, ParseError>)
    ensures r.Ok? ==> ToStr(r.value) == s
    ensures r.Err? ==> r.error == ParseError(UnknownProviderMessage(ListedPossibleValues))
  {
    match s
    case "openai" => Ok(OpenAI)
    case "cohere" => Ok(Cohere)
    case "ai21" => Ok(AI21)
    case "azure_openai" => Ok(AzureOpenAI)
    case "anthropic" => Ok(Anthropic)
    case "mistral" => Ok(Mistral)
    case "google_ai_studio" => Ok(GoogleAiStudio)
    case _ => Err(ParseError(UnknownProviderMessage(ListedPossibleValues)))
  }

  /** Round trip: parsing the displayed name of a provider gives that provider back. */
  lemma ParseToStr(p: ProviderId)
    ensures Parse(ToStr(p)) == Ok(p)
  {
    match p
    case OpenAI =>
    case Cohere =>
    case AI21 =>
    case AzureOpenAI =>
    case Anthropic =>
    case Mistral =>
    case GoogleAiStudio =>
  }

  /** The seven providers have seven pairwise-distinct wire names. */
  lemma ToStrInjective(p: ProviderId, q: ProviderId)
    ensures ToStr(p) == ToStr(q) ==> p == q
  {
  }

  /** Parsing succeeds exactly on the wire names of the providers. */
  lemma ParseSucceedsIff(s: string)
    ensures Parse(s).Ok? <==> exists p :: ToStr(p) == s
  {
  }

  /** A string holding any upper-case letter is rejected, so case variants such as "OpenAI" are not names. */
  lemma ParseRejectsUppercase(s: string, i: nat)
    requires i < |s| && 'A' <= s[i] <= 'Z'
    ensures Parse(s) == Err(ParseError(UnknownProviderMessage(ListedPossibleValues)))
  {
  }

  lemma CaseVariantsRejected()
    ensures Parse("OpenAI").Err? && Parse("OPENAI").Err? && Parse("Cohere").Err?
    ensures Parse("AI21").Err? && Parse("Azure_OpenAI").Err? && Parse("Google_AI_Studio").Err?
  {
  }

  // ---------------------------------------------------------------------------
  // Serialisation attributes: `rename_all = "lowercase"` plus two explicit renames.

  /** The Rust identifier of each variant. */
  function VariantName(p: ProviderId): string {
    match p
    case OpenAI => "OpenAI"
    case Cohere => "Cohere"
    case AI21 => "AI21"
    case AzureOpenAI => "AzureOpenAI"
    case Anthropic => "Anthropic"
    case Mistral => "Mistral"
    case GoogleAiStudio => "GoogleAiStudio"
  }

  function LowerChar(c: char): char {
    if 'A' <= c <= 'Z' then (c as int - 'A' as int + 'a' as int) as char else c
  }

  predicate IsUpper(c: char) {
    'A' <= c <= 'Z'
  }

  /** ASCII lower-casing, as serde's `rename_all = "lowercase"` applies it to an identifier. */
  function Lowercase(s: string): (r: string)
    ensures |r| == |s|
    ensures forall i :: 0 <= i < |r| ==> !IsUpper(r[i])
    ensures forall i :: 0 <= i < |s| && !IsUpper(s[i]) ==> r[i] == s[i]
    ensures IsWireName(s) ==> r == s
  {
    seq(|s|, i requires 0 <= i < |s| => LowerChar(s[i]))
  }

  /** The name serde reads and writes: the lower-cased identifier unless the variant is renamed. */
  function SerdeName(p: ProviderId): (s: string)
    ensures s == ToStr(p)
  {
    match p
    case AzureOpenAI => "azure_openai"
    case GoogleAiStudio => "google_ai_studio"
    case OpenAI => assert Lowercase("OpenAI") == "openai"; Lowercase(VariantName(p))
    case Cohere => assert Lowercase("Cohere") == "cohere"; Lowercase(VariantName(p))
    case AI21 => assert Lowercase("AI21") == "ai21"; Lowercase(VariantName(p))
    case Anthropic => assert Lowercase("Anthropic") == "anthropic"; Lowercase(VariantName(p))
    case Mistral => assert Lowercase("Mistral") == "mistral"; Lowercase(VariantName(p))
  }

  /** The name serde writes is read back by `FromStr`, so JSON and the textual form use the same names. */
  lemma SerdeNameParses(p: ProviderId)
    ensures Parse(SerdeName(p)) == Ok(p)
  {
    ParseToStr(p);
  }

  // ---------------------------------------------------------------------------
  // The parse-error message and the values it offers.

  function Join(values: seq<string>, sep: string): string {
    if |values| == 0 then ""
    else if |values| == 1 then values[0]
    else values[0] + sep + Join(values[1..], sep)
  }

  function UnknownProviderMessage(values: seq<string>): (m: string)
    ensures |m| > 38 && m[..38] == "Unknown provider ID (possible values: " && m[|m| - 1] == ')'
  {
    "Unknown provider ID (possible values: " + Join(values, ", ") + ")"
  }

  /** The values the unknown-provider message offers, as written. */
  const ListedPossibleValues: seq<string> := ["openai", "cohere", "ai21", "azure_openai", "mistral"]

  /**
   * As written, the message a rejection carries offers five values and omits
   * two names the parser accepts.
   */
  lemma ListedValuesOmitAccepted()
    ensures Parse("foo") == Err(ParseError(UnknownProviderMessage(ListedPossibleValues)))
    ensures Parse("anthropic").Ok? && "anthropic" !in ListedPossibleValues
    ensures Parse("google_ai_studio").Ok? && "google_ai_studio" !in ListedPossibleValues
  {
  }

  /** The possible values the corrected message offers: every wire name, in declaration order. */
  function PossibleValues(): seq<string> {
    seq(|AllProviders|, i requires 0 <= i < |AllProviders| => ToStr(AllProviders[i]))
  }

  /** The corrected list offers exactly the strings `Parse` accepts. */
  lemma PossibleValuesExact(s: string)
    ensures s in PossibleValues() <==> Parse(s).Ok?
  {
    var vs := PossibleValues();
    if s in vs {
      var i :| 0 <= i < |vs| && vs[i] == s;
      ParseToStr(AllProviders[i]);
    }
    if Parse(s).Ok? {
      var p := Parse(s).value;
      var i := match p
        case OpenAI => 0 case Cohere => 1 case AI21 => 2 case AzureOpenAI => 3
        case Anthropic => 4 case Mistral => 5 case GoogleAiStudio => 6;
      assert AllProviders[i] == p;
      assert vs[i] == s;
    }
  }

  /**
   * `FromStr` with the corrected message: the same successes as `Parse`, and
   * a rejection that offers every accepted name.
   */
  function ParseCorrected(s: string): (r: Result<ProviderId, ParseError>)
    ensures r.Ok? <==> Parse(s).Ok?
    ensures r.Ok? ==> r == Parse(s)
    ensures r.Err? ==> r.error == ParseError(UnknownProviderMessage(PossibleValues()))
    ensures r.Err? ==> forall v :: v in PossibleValues() <==> Parse(v).Ok?
  {
    match Parse(s)
    case Ok(p) => Ok(p)
    case Err(_) =>
      PossibleValuesOffered();
      Err(ParseError(UnknownProviderMessage(PossibleValues())))
  }

  lemma PossibleValuesOffered()
    ensures forall v :: v in PossibleValues() <==> Parse(v).Ok?
  {
    forall v ensures v in PossibleValues() <==> Parse(v).Ok? {
      PossibleValuesExact(v);
    }
  }
}
