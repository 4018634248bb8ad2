/**
 The provider identity resolver: a free-text provider name becomes a short
 display label (`GetProviderInitial`) and an optional logo URL
 (`GetProviderLogo`). Both look the lowercased name up in a fixed table.
 */
module Providers {
  import opened Wrappers
  import opened AsciiCase

  /** Lowercase provider identifier to a 1-2 character display label. */
  const InitialTable: map<string, string> := map[
    "anthropic" := "A",
    "openai" := "O",
    "azure" := "Az",
    "bedrock" := "B",
    "vertex_ai" := "V",
    "cohere" := "C",
    "huggingface" := "H",
    "replicate" := "R",
    "groq" := "G",
    "together_ai" := "T",
    "mistral" := "M",
    "deepinfra" := "D"
  ]

  /** Lowercase provider identifier to a logo file name; aliases share a file. */
  const LogoTable: map<string, string> := map[
    "openai" := "openai_small.svg",
    "azure" := "microsoft_azure.svg",
    "anthropic" := "anthropic.svg",
    "bedrock" := "bedrock.svg",
    "vertex_ai" := "google.svg",
    "vertexai" := "google.svg",
    "cohere" := "cohere.svg",
    "groq" := "groq.svg",
    "mistral" := "mistral.svg",
    "deepinfra" := "deepinfra.png",
    "databricks" := "databricks.svg",
    "fireworks_ai" := "fireworks.svg",
    "fireworks" := "fireworks.svg",
    "ollama" := "ollama.svg",
    "openrouter" := "openrouter.svg",
    "deepseek" := "deepseek.svg",
    "cerebras" := "cerebras.svg",
    "oracle" := "oracle.svg",
    "text-completion-openai" := "openai_small.svg",
    "text-completion-codestral" := "mistral.svg",
    "codestral" := "mistral.svg",
    "sagemaker" := "aws.svg",
    "aws" := "aws.svg",
    "google" := "google.svg",
    "gemini" := "google.svg"
  ]

  /** The fixed remote directory every logo URL starts with. */
  const LogoBase: string := "https://raw.githubusercontent.com/BerriAI/litellm/main/ui/litellm-dashboard/public/assets/logos/"

  /** Indexing a table by a key: `undefined` (here `None`) when the key is not an own key. */
  function Lookup(table: map<string, string>, key: string): Option<string>
  {
    if key in table then Some(table[key]) else None
  }

  /** JavaScript truthiness of a `string | undefined`: defined and non-empty. */
  predicate Truthy(v: Option<string>)
  {
    v.Some? && v.value != ""
  }

  /** Every initials label has one or two characters. */
  lemma InitialLabelsShort()
    ensures forall k :: k in InitialTable ==> 1 <= |InitialTable[k]| <= 2
  {
  }

  /** Every logo file name is non-empty. */
  lemma LogoFilesNonEmpty()
    ensures forall k :: k in LogoTable ==> LogoTable[k] != ""
  {
  }

  /** Every key of the initials table is already lowercase. */
  lemma InitialKeysLowered()
    ensures forall k :: k in InitialTable ==> IsLowered(k)
  {
  }

  /** Every key of the logo table is already lowercase. */
  lemma LogoKeysLowered()
    ensures forall k :: k in LogoTable ==> IsLowered(k)
  {
  }

  /**
   The display label of a provider: "?" for the empty name, the stored label
   when the lowercased name is in the table, else the first character of the
   name as given, raised.
   */
  function GetProviderInitial(provider: string): (r: string)
    ensures 1 <= |r| <= 2
  {
    if provider == "" then "?"
    else
      var lowerProvider := LowerStr(provider);
      var initial := Lookup(InitialTable, lowerProvider);
      if Truthy(initial) then
        InitialLabelsShort();
        initial.value
      else
        [Upper(provider[0])]
  }

  /**
   The logo URL of a provider: `None` for the empty name or a name whose
   lowercased form is not in the table, else the base URL followed by the
   stored file name.
   */
  function GetProviderLogo(provider: string): (r: Option<string>)
    ensures r.Some? ==> |LogoBase| < |r.value| && r.value[..|LogoBase|] == LogoBase
    ensures r.Some? ==> r.value[|LogoBase|..] in LogoTable.Values
  {
    if provider == "" then None
    else
      var lowerProvider := LowerStr(provider);
      var logoFilename := Lookup(LogoTable, lowerProvider);
      if Truthy(logoFilename) then
        var url := LogoBase + logoFilename.value;
        assert url[|LogoBase|..] == LogoTable[lowerProvider];
        Some(url)
      else
        None
  }

  // ---------------------------------------------------------------------
  // Initials

  /** The empty name is shown as "?". */
  lemma InitialOfEmpty()
    ensures GetProviderInitial("") == "?"
  {
  }

  /** A name whose lowercased form is a key gets the stored label, not re-cased. */
  lemma InitialHit(provider: string)
    requires provider != "" && LowerStr(provider) in InitialTable
    ensures GetProviderInitial(provider) == InitialTable[LowerStr(provider)]
  {
    InitialLabelsShort();
  }

  /** Any other non-empty name gets its own first character, raised. */
  lemma InitialMiss(provider: string)
    requires provider != "" && LowerStr(provider) !in InitialTable
    ensures GetProviderInitial(provider) == [Upper(provider[0])]
  {
  }

  /** Names that are equal once lowercased get the same label, on either path. */
  lemma InitialCaseInsensitive(p: string, q: string)
    requires LowerStr(p) == LowerStr(q)
    ensures GetProviderInitial(p) == GetProviderInitial(q)
  {
    if p != "" {
      SameLoweredSameFirstUpper(p, q);
    }
  }

  /** Every key of the initials table, asked for as it is, yields its own label. */
  lemma InitialKeysResolve()
    ensures forall k :: k in InitialTable ==> GetProviderInitial(k) == InitialTable[k]
  {
    forall k | k in InitialTable
      ensures GetProviderInitial(k) == InitialTable[k]
    {
      InitialKeysLowered();
      LowerStrFixes(k);
      InitialHit(k);
    }
  }

  /** A capitalised table name is still a hit, and its label keeps its stored case. */
  lemma InitialOfAzureUpper()
    ensures GetProviderInitial("AZURE") == "Az"
  {
    assert LowerStr("AZURE") == "azure";
    InitialHit("AZURE");
  }

  /** "OpenAI" and "openai" both give "O". */
  lemma InitialOfOpenAI()
    ensures GetProviderInitial("OpenAI") == GetProviderInitial("openai") == "O"
  {
    assert LowerStr("OpenAI") == "openai";
    InitialHit("OpenAI");
    InitialCaseInsensitive("OpenAI", "openai");
  }

  /** "Anthropic" gives "A". */
  lemma InitialOfAnthropic()
    ensures GetProviderInitial("Anthropic") == "A"
  {
    assert LowerStr("Anthropic") == "anthropic";
    InitialHit("Anthropic");
  }

  /** A name outside the table falls back to its first letter, raised. */
  lemma InitialOfZzz()
    ensures GetProviderInitial("zzz") == "Z"
  {
    InitialOfLoweredMiss("zzz");
  }

  /** A lowercase name that is not a key shows its own first letter, raised. */
  lemma InitialOfLoweredMiss(name: string)
    requires name != "" && IsLowered(name) && name !in InitialTable
    ensures GetProviderInitial(name) == [Upper(name[0])]
  {
    LowerStrFixes(name);
    InitialMiss(name);
  }

  /** An unrecognised name shows its own first letter, raised. */
  lemma InitialOfUnknown()
    ensures GetProviderInitial("unknownprovider") == "U"
  {
    InitialOfLoweredMiss("unknownprovider");
  }

  // ---------------------------------------------------------------------
  // Logos

  /** The empty name has no logo. */
  lemma LogoOfEmpty()
    ensures GetProviderLogo("") == None
  {
  }

  /** A name has no logo exactly when it is empty or its lowercased form is not a key. */
  lemma LogoNoneIff(provider: string)
    ensures GetProviderLogo(provider) == None <==> provider == "" || LowerStr(provider) !in LogoTable
  {
    LogoFilesNonEmpty();
  }

  /** A name whose lowercased form is a key gets the base URL and the stored file name. */
  lemma LogoHit(provider: string)
    requires provider != "" && LowerStr(provider) in LogoTable
    ensures GetProviderLogo(provider) == Some(LogoBase + LogoTable[LowerStr(provider)])
  {
    LogoFilesNonEmpty();
  }

  /** A table key, given as it is written, finds its own file. */
  lemma LogoOfKey(key: string)
    requires key in LogoTable
    ensures GetProviderLogo(key) == Some(LogoBase + LogoTable[key])
  {
    LogoKeysLowered();
    LowerStrFixes(key);
    LogoHit(key);
  }

  /** Names that are equal once lowercased get the same logo. */
  lemma LogoCaseInsensitive(p: string, q: string)
    requires LowerStr(p) == LowerStr(q)
    ensures GetProviderLogo(p) == GetProviderLogo(q)
  {
  }

  /** Every key of the logo table, asked for as it is, yields its own file. */
  lemma LogoKeysResolve()
    ensures forall k :: k in LogoTable ==> GetProviderLogo(k) == Some(LogoBase + LogoTable[k])
  {
    forall k | k in LogoTable
      ensures GetProviderLogo(k) == Some(LogoBase + LogoTable[k])
    {
      LogoOfKey(k);
    }
  }

  /** The four Google aliases share one file. */
  lemma LogoGoogleAliases()
    ensures GetProviderLogo("vertex_ai") == Some(LogoBase + "google.svg")
    ensures GetProviderLogo("vertexai") == Some(LogoBase + "google.svg")
    ensures GetProviderLogo("google") == Some(LogoBase + "google.svg")
    ensures GetProviderLogo("gemini") == Some(LogoBase + "google.svg")
  {
    LogoOfKey("vertex_ai");
    LogoOfKey("vertexai");
    LogoOfKey("google");
    LogoOfKey("gemini");
  }

  /** "cohere" gives the URL of cohere.svg. */
  lemma LogoOfCohere()
    ensures GetProviderLogo("cohere") == Some(LogoBase + "cohere.svg")
  {
    LogoOfKey("cohere");
  }

  /** A lowercase name that is not a key has no logo. */
  lemma LogoOfLoweredMiss(name: string)
    requires name != "" && IsLowered(name) && name !in LogoTable
    ensures GetProviderLogo(name) == None
  {
    LowerStrFixes(name);
    LogoNoneIff(name);
  }

  /** A name outside the table has no logo. */
  lemma LogoOfUnknown()
    ensures GetProviderLogo("totally-unknown") == None
  {
    LogoOfLoweredMiss("totally-unknown");
  }

  /** "OpenAI" and "openai" give the same URL. */
  lemma LogoOfOpenAI()
    ensures GetProviderLogo("OpenAI") == GetProviderLogo("openai") == Some(LogoBase + "openai_small.svg")
  {
    assert LowerStr("OpenAI") == "openai";
    LogoHit("OpenAI");
    LogoCaseInsensitive("OpenAI", "openai");
  }
}
