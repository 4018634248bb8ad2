# Provider identity resolver

A Dafny model of the provider utility of the contextlengthof web front-end
(`src/providers.ts`). Two pure, total functions turn a free-text AI-provider
name into:

- a short display initial (`getProviderInitial`). The empty name gives `"?"`.
  Any other name is lowercased and looked up in a fixed 12-entry table, and a
  hit returns the stored label as written (`"Az"` for azure). A miss returns
  the upper-cased first character of the name as given.
- an optional logo URL (`getProviderLogo`). The empty name gives `null`. Any
  other name is lowercased and looked up in a fixed 25-entry file-name table,
  and a hit returns a fixed GitHub base URL followed by the file name. A miss
  returns `null`.

Files:

- `wrappers.dfy`: module `Wrappers`, the `Option` type that stands for
  JavaScript's `null` result.
- `ascii_case.dfy`: module `AsciiCase`, the ASCII models of `toLowerCase` and
  `toUpperCase` on characters and strings, with their properties.
- `providers.dfy`: module `Providers`, the two tables, the base URL, the two
  functions and the lemmas about them.

A JavaScript object lookup `table[key]` is modelled as `Lookup`, which returns
`None` for a key that is not an own key of the table. The `if (...)` test on
the looked-up value is modelled as JavaScript truthiness (`Truthy`: defined
and non-empty). The lemmas `InitialLabelsShort` and `LogoFilesNonEmpty` show
that no stored value is the empty string, so "truthy" and "key present"
agree, and the hit/miss lemmas are stated in terms of key presence.

## Model

| member | source | states |
|---|---|---|
| AsciiCase.Lower | src/providers.ts:27 | lowering never yields an ASCII capital; it maps a capital to its small letter and leaves every other character unchanged |
| AsciiCase.Upper | src/providers.ts:33 | raising never yields an ASCII small letter; it maps a small letter to its capital and leaves every other character unchanged |
| AsciiCase.CaseRoundTrip | src/providers.ts:27-33 | lowering after raising equals lowering, and raising after lowering equals raising: only the letter case is lost |
| AsciiCase.SameLowerSameUpper | src/providers.ts:27-33 | two characters that are equal once lowered are also equal once raised |
| AsciiCase.LowerStr | src/providers.ts:27 | `toLowerCase` keeps the length and lowers each character in place |
| AsciiCase.LowerStrIsLowered | src/providers.ts:27 | a lowered string contains no ASCII capital |
| AsciiCase.LowerStrFixes | src/providers.ts:27 | lowering leaves a string without capitals unchanged |
| AsciiCase.LowerStrFixedIff | src/providers.ts:27 | lowering leaves a string unchanged if and only if it has no ASCII capital |
| AsciiCase.LowerStrIdempotent | src/providers.ts:27 | lowering twice gives the same string as lowering once |
| AsciiCase.SameLoweredSameFirstUpper | src/providers.ts:27-33 | if two names are equal once lowered and the first is non-empty, the second is non-empty and both first characters raise to the same character |
| Providers.InitialLabelsShort | src/providers.ts:12-25 | every label in the initials table has one or two characters, so none is falsy |
| Providers.LogoFilesNonEmpty | src/providers.ts:44-70 | every file name in the logo table is non-empty, so none is falsy |
| Providers.InitialKeysLowered | src/providers.ts:12-25 | every key of the initials table is lowercase, so the lowercased lookup can reach each one |
| Providers.LogoKeysLowered | src/providers.ts:44-70 | every key of the logo table is lowercase, so the lowercased lookup can reach each one |
| Providers.GetProviderInitial | src/providers.ts:8-34 | the initial is total and always has one or two characters |
| Providers.GetProviderLogo | src/providers.ts:40-80 | every URL returned starts with the fixed base URL, and the rest of it is a file name from the logo table, so no part of the caller's input appears in it |
| Providers.InitialOfEmpty | src/providers.ts:9 | the empty name gives `"?"` |
| Providers.InitialHit | src/providers.ts:27-29 | when the lowercased name is a key of the initials table, the result is exactly the stored label, not re-cased |
| Providers.InitialMiss | src/providers.ts:32-33 | when a non-empty name's lowercased form is not a key, the result is the first character of the name as given, raised |
| Providers.InitialCaseInsensitive | src/providers.ts:27-33 | names equal once lowercased get the same initial, on the hit path and on the fallback path |
| Providers.InitialKeysResolve | src/providers.ts:12-29 | each key of the initials table, given as it is written, yields its own label |
| Providers.InitialOfAzureUpper | src/providers.ts:15 | `"AZURE"` gives `"Az"`: a capitalised name is still a hit, and the two-letter label keeps its stored case |
| Providers.InitialOfOpenAI | src/providers.ts:14 | `"OpenAI"` and `"openai"` both give `"O"` |
| Providers.InitialOfAnthropic | src/providers.ts:13 | `"Anthropic"` gives `"A"` |
| Providers.InitialOfLoweredMiss | src/providers.ts:27-33 | a non-empty lowercase name that is not a key gives its own first character, raised |
| Providers.InitialOfZzz | src/providers.ts:32-33 | `"zzz"` gives `"Z"` |
| Providers.InitialOfUnknown | src/providers.ts:32-33 | `"unknownprovider"` gives `"U"` |
| Providers.LogoOfEmpty | src/providers.ts:41 | the empty name has no logo |
| Providers.LogoNoneIff | src/providers.ts:41-79 | the logo is absent if and only if the name is empty or its lowercased form is not a key of the logo table |
| Providers.LogoHit | src/providers.ts:72-77 | when the lowercased name is a key, the result is the base URL followed by the stored file name |
| Providers.LogoOfKey | src/providers.ts:44-77 | every key of the logo table, given as it is written, yields the base URL followed by its file name |
| Providers.LogoCaseInsensitive | src/providers.ts:72-79 | names equal once lowercased get the same logo result |
| Providers.LogoKeysResolve | src/providers.ts:44-77 | each key of the logo table, given as it is written, yields the base URL followed by its own file name |
| Providers.LogoGoogleAliases | src/providers.ts:49-69 | `"vertex_ai"`, `"vertexai"`, `"google"` and `"gemini"` all give the base URL followed by `google.svg` |
| Providers.LogoOfCohere | src/providers.ts:51 | `"cohere"` gives the base URL followed by `cohere.svg` |
| Providers.LogoOfLoweredMiss | src/providers.ts:72-79 | a non-empty lowercase name that is not a key has no logo |
| Providers.LogoOfUnknown | src/providers.ts:72-79 | `"totally-unknown"` has no logo |
| Providers.LogoOfOpenAI | src/providers.ts:45 | `"OpenAI"` and `"openai"` both give the URL of `openai_small.svg` |

## Left out

- `src/analytics.ts` is not part of this model. It is a thin wrapper over the `mixpanel-browser` SDK. It reads a build-time token, reads `window.location` and `document.referrer`, logs to the console and stamps wall-clock time. All of that is I/O or foreign calls. Its own logic is small:
  - the `if (MIXPANEL_TOKEN)` guards that turn every call into a no-op when no token is configured (src/analytics.ts:8, 22, 33, 45, 58, 67);
  - the defaults `provider || 'all'` and `resultsCount || 0` (src/analytics.ts:36-37);
  - the `!!docsLink` coercion, which sends only whether a link was given (src/analytics.ts:49);
  - the e-mail domain expression `email.split('@')[1] || 'unknown'` (src/analytics.ts:50). That expression takes the text between the first and the second `@`, not everything after the first.
- Case mapping is ASCII only. JavaScript's `toLowerCase`/`toUpperCase` follow Unicode, and the model leaves every non-ASCII character unchanged. The differences this makes:
  - A non-ASCII first letter on the fallback path: `"élan"` gives `"É"` in the source and `"é"` in the model.
  - Multi-character upper-casing on the fallback path: `"ß"` gives `"SS"` and `"ﬃ"` gives `"FFI"` in the source; the model keeps the character.
  - Surrogate pairs: `charAt(0)` takes one UTF-16 unit, where the model takes one Unicode character.
  - Non-ASCII characters that lower to ASCII. The Kelvin sign U+212A lowers to `k` in JavaScript, so `"BEDROC"` followed by U+212A is a hit for `bedrock` in the source and a miss in the model.
- Providers.InitialCaseInsensitive: holds in the source only for ASCII names. The Kelvin sign U+212A and `"k"` both lower to `"k"` and miss the table, but the source raises them to U+212A and `"K"`, so their initials differ.
- Providers.GetProviderInitial: the bound of one or two characters is proved for every input here, because the case mapping is ASCII only. In the source a hit never breaks the bound, and neither does `"ß"`, which raises to the two characters `"SS"`. The bound fails only on the fallback path (src/providers.ts:33), when the first UTF-16 unit raises to three or more units: `"ﬃ"` gives `"FFI"`. It also fails for names whose lowercase is `"constructor"` or `"__proto__"` (see the line on inherited object members).
- Providers.GetProviderLogo: the ensures that every URL is the base URL followed by a file name from the table holds for own-key lookups only. In the source it fails for names whose lowercase is `"constructor"` or `"__proto__"` (see the line on inherited object members).
- Inherited object members are not modelled. The tables are JavaScript object literals, and both lookups use the lowercased name (src/providers.ts:27-28, 72-73). A name whose lowercase is `"constructor"` or `"__proto__"`, such as `"Constructor"` or `"__PROTO__"`, therefore hits a member inherited from `Object.prototype`. (`"toString"` is looked up as `"tostring"`, which is not inherited, so it misses in the source as in the model.) On those two names the source behaves as follows:
  - `getProviderInitial` returns the `Object` function or `Object.prototype`, not a string of one or two characters.
  - `getProviderLogo` returns the base URL followed by `function Object() { [native code] }` or `[object Object]`, which is not a file name from the table.

  The model looks up own keys only, so these names miss. It gives `"C"` and `None` for `"Constructor"`. The one-to-two-character ensures of `Providers.GetProviderInitial` and the URL-shape ensures of `Providers.GetProviderLogo` therefore hold for the own-key model, not for the source on these two names.
- Run-time `null` or `undefined` arguments, which the falsy tests at src/providers.ts:9 and :41 also catch, are not modelled. The parameter is typed `string`, so only the empty string is modelled.
