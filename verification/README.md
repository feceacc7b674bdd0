# Recipe executor: natural-language parser heuristics and the file-reading step

This project models two pieces of the recipe executor in Dafny.

- **The deterministic heuristics of the natural-language recipe parser**
  (`RecipeParser`, in `recipe_parser.dfy`):
  - inferring a recipe type from keywords in the text;
  - suggesting steps, either from explicitly numbered steps or from trigger words;
  - building the system prompt for the language model;
  - dispatching the configured provider to a model backend.
- **The `file_read` step** (`ReadFile`, in `read_file.dfy`):
  - its configuration (`path`, `artifact`, and `optional`, which defaults to false);
  - its execution against the shared execution context. The step renders its path once, looks the file up, and then does one of four things:
    - stores the file's text under the artifact name;
    - stores `""` for a missing optional file;
    - raises a not-found error naming the path;
    - re-raises a read error.

Supporting modules:
- `Text` (`text.dfy`) holds the Python string operations these rely on: `str.isspace`, `lower`, `strip`, substring `in`, `"\n".join` and the slice `[:n]`.
- `ExecutionContext` (`execution_context.dfy`) holds the mutable context map.
- `Results` (`results.dfy`) holds `Option` and `Result`.

## Modelling choices

- **Regular expressions.** Each explicit-step pattern's `re.findall` result is an input: `SuggestStepsFromContent` receives one list of matches per pattern, in pattern order. Everything after the matching is modelled:
  - stripping, dropping blank matches and the `"- "` prefix;
  - first pattern wins, at most five lines;
  - the keyword fallback and the default text.
- **The system prompt.** The two long prompt texts are kept verbatim as string constants. The analyzer guidance is written as its first three characters followed by the rest.
- **Provider dispatch.** Model objects are tags carrying the model name; an unknown provider gives the `"provider:name"` string.
- **The file-reading step.** It is a class whose `Execute` method mutates a `Context` object. It is proved equal to the pure function `ExecuteSpec`, and the per-branch lemmas are stated about that function.
  - The file system is a map from path to entry. An entry is either `Contents(text)`, the decoded text, or `Unreadable`: the path exists but opening or decoding fails.
  - Template rendering is a function parameter that either yields the rendered path or fails.
- **Not-found error.** For a missing required file the step raises `FileNotFoundError` with the message `ReadFileStep: file not found at path: <path>`.

## Model

| member | source | states |
|---|---|---|
| RecipeParser.InferRecipeType | recipe_executor/parsers/pydantic_parser.py:50-77 | the inferred type is always one of the seven tags analyzer, generator, processor, transformer, validator, extractor, content |
| Text.Lower | recipe_executor/parsers/pydantic_parser.py:60 | lower-casing keeps the length, leaves no ASCII capital, and keeps every other character |
| Text.Contains | recipe_executor/parsers/pydantic_parser.py:63-74 | only a text at least as long as `sub` contains it, and the empty string occurs in every text |
| RecipeParser.FirstFiringRule | recipe_executor/parsers/pydantic_parser.py:63-74 | the rule chosen fires, no earlier rule fires, and none is chosen exactly when no rule fires |
| RecipeParser.InferRecipeTypeIsFirstMatch | recipe_executor/parsers/pydantic_parser.py:63-77 | the if/elif chain equals first-match-wins over the ordered keyword table, with "content" when no pair occurs |
| RecipeParser.AnalyzerTakesPriority | recipe_executor/parsers/pydantic_parser.py:63-64 | text mentioning "analyzer" or "analysis" is an analyzer recipe whatever else it mentions |
| RecipeParser.InferRecipeTypeIgnoresCase | recipe_executor/parsers/pydantic_parser.py:60 | text and its lower-cased form get the same tag |
| Text.LowerIdempotent | recipe_executor/parsers/pydantic_parser.py:60 | lower-casing twice is lower-casing once |
| RecipeParser.LongKeywordsContainShortOnes | recipe_executor/parsers/pydantic_parser.py:67-74 | "processor", "transformer" and "extractor" contain "process", "transform" and "extract" |
| RecipeParser.ShortKeywordDecides | recipe_executor/parsers/pydantic_parser.py:67-74 | processor, transformer and extractor are chosen exactly when the shorter keyword occurs and no earlier pair does |
| RecipeParser.ContentIffNoKeyword | recipe_executor/parsers/pydantic_parser.py:63-77 | "content" is returned if and only if none of the twelve keywords occurs |
| Text.Strip | recipe_executor/parsers/pydantic_parser.py:105 | stripping never lengthens the text (with `StripRemovesOnlyOuterSpace`, `StripTrimsBothEnds` and `StripEmpty` it is exactly Python's `strip`) |
| Text.StripTrimsBothEnds | recipe_executor/parsers/pydantic_parser.py:105 | a non-empty stripped text neither starts nor ends with whitespace |
| Text.StripEmpty | recipe_executor/parsers/pydantic_parser.py:105-106 | stripping yields "" if and only if the text is all whitespace |
| Text.StripKeepsMiddle | recipe_executor/parsers/pydantic_parser.py:105 | the stripped text occurs in the original |
| Text.StripRemovesOnlyOuterSpace | recipe_executor/parsers/pydantic_parser.py:105 | the stripped text is the slice of the original between a whitespace-only prefix and a whitespace-only suffix |
| Text.IsSpace | recipe_executor/parsers/pydantic_parser.py:105 | space, tab, newline and carriage return are whitespace; no ASCII letter or digit is |
| Text.Take | recipe_executor/parsers/pydantic_parser.py:111 | `[:n]` keeps min(length, n) elements and is a prefix |
| Text.Join | recipe_executor/parsers/pydantic_parser.py:111 | the joined text opens with the first line, ends with the last, and has the separator right after the first line when there are several |
| RecipeParser.Bullet | recipe_executor/parsers/pydantic_parser.py:104-107 | one match yields at most one line |
| RecipeParser.BulletShape | recipe_executor/parsers/pydantic_parser.py:103-107 | a match yields no line exactly when it is all whitespace; otherwise one line "- " followed by the stripped match |
| RecipeParser.ExplicitSteps | recipe_executor/parsers/pydantic_parser.py:103-107 | a pattern yields at most one line per match |
| RecipeParser.ExplicitStepsAreBullets | recipe_executor/parsers/pydantic_parser.py:103-107 | every explicit line is "- " followed by a non-empty stripped step |
| RecipeParser.ExplicitStepsEmpty | recipe_executor/parsers/pydantic_parser.py:102-110 | a pattern yields no line if and only if every match strips to "" |
| RecipeParser.ExplicitStepsConcat | recipe_executor/parsers/pydantic_parser.py:103-107 | lines keep match order: the lines of a concatenation are the lines of its parts in turn |
| RecipeParser.ExplicitStepsOfOne | recipe_executor/parsers/pydantic_parser.py:104-107 | a single match yields exactly its own line |
| RecipeParser.CollectBullets | recipe_executor/parsers/pydantic_parser.py:103-107 | the inner loop appends exactly the lines of the pattern's matches, in order |
| RecipeParser.PatternSteps | recipe_executor/parsers/pydantic_parser.py:100-107 | one list of lines per pattern |
| RecipeParser.PatternStepsAt | recipe_executor/parsers/pydantic_parser.py:100-107 | the p-th list is the lines of the p-th pattern's matches |
| RecipeParser.FirstNonEmpty | recipe_executor/parsers/pydantic_parser.py:100-111 | the chosen pattern yields lines, every earlier one yields none, and none is chosen exactly when no pattern yields lines |
| RecipeParser.FirstNonEmptyIs | recipe_executor/parsers/pydantic_parser.py:100-111 | the first pattern with lines after only empty ones is the one chosen |
| RecipeParser.ExplicitPatternDecides | recipe_executor/parsers/pydantic_parser.py:100-111 | once a pattern yields lines, the first such pattern alone decides: its first five lines, between one and five well-formed lines, whatever the text's wording |
| RecipeParser.KeywordSuggestionPresence | recipe_executor/parsers/pydantic_parser.py:113-124 | each keyword line is present if and only if its trigger word occurs in the lower-cased text |
| RecipeParser.KeywordSuggestions | recipe_executor/parsers/pydantic_parser.py:113-124 | at most four keyword lines, and none exactly when no trigger word occurs |
| RecipeParser.SuggestedSteps | recipe_executor/parsers/pydantic_parser.py:100-126 | between one and five suggestion lines in every case |
| RecipeParser.KeywordSuggestionOrder | recipe_executor/parsers/pydantic_parser.py:113-124 | keyword lines always come in the order read, process, generate, write, each at most once |
| RecipeParser.KeywordFallback | recipe_executor/parsers/pydantic_parser.py:113-126 | with no explicit lines: the default three lines exactly when no trigger word occurs, otherwise the keyword lines; one to four lines |
| RecipeParser.DefaultSuggestionText | recipe_executor/parsers/pydantic_parser.py:126 | the default lines joined by newlines are the literal default text |
| RecipeParser.CollectKeywordLines | recipe_executor/parsers/pydantic_parser.py:113-124 | the appends of the keyword phase produce exactly the keyword lines |
| RecipeParser.SuggestStepsFromContent | recipe_executor/parsers/pydantic_parser.py:79-126 | the returned text is the newline join of the suggested lines, the explicit phase returning early |
| RecipeParser.CreateSystemPrompt | recipe_executor/parsers/pydantic_parser.py:375-530 | the prompt starts with the base prompt, followed by the analyzer guidance for "analyzer", by the type hint for any other non-empty type, and by nothing for no type or "" |
| RecipeParser.TypeHint | recipe_executor/parsers/pydantic_parser.py:528 | the hint opens with two newlines and names the recipe type |
| RecipeParser.TypeHintInjective | recipe_executor/parsers/pydantic_parser.py:527-528 | two types get the same hint only if they are the same type |
| RecipeParser.TypeHintIsNotAnalyzerGuidance | recipe_executor/parsers/pydantic_parser.py:460-528 | no type hint equals the analyzer guidance |
| RecipeParser.CreateModelForProvider | recipe_executor/parsers/pydantic_parser.py:352-373 | a string model exactly for providers outside the five known ones, and that string is provider, ":" and model name; a backend tag otherwise, carrying the model name |
| RecipeParser.DefaultSettingsSelectAnthropic | recipe_executor/parsers/pydantic_parser.py:30-46 | default settings select the Anthropic backend with the default model name |
| RecipeParser.SplitAtFirstColonOfJoin | recipe_executor/parsers/pydantic_parser.py:372 | "provider:name" splits back into provider and name when the provider has no colon |
| RecipeParser.ProviderRoundTrip | recipe_executor/parsers/pydantic_parser.py:359-373 | provider and model name can be read back from the dispatched model for every colon-free provider |
| ExecutionContext.Context.Set | recipe_executor/steps/read_file.py:60 | item assignment replaces the one key and keeps every other entry |
| ReadFile.StringField | recipe_executor/steps/read_file.py:19-20 | a required field is valid exactly when present with a string value |
| ReadFile.OptionalField | recipe_executor/steps/read_file.py:21 | `optional` is false when absent, the given flag when a boolean, invalid otherwise |
| ReadFile.ParseReadFileConfig | recipe_executor/steps/read_file.py:10-21 | validation succeeds if and only if every field is valid, and then yields the given path, artifact and flag (false when absent); a failure names exactly the invalid fields |
| ReadFile.OptionalDefaultsToFalse | recipe_executor/steps/read_file.py:21 | any definition with both strings and no `optional` yields `optional == false`, whatever other keys it has |
| ReadFile.PathAndArtifactRequired | recipe_executor/steps/read_file.py:19-20 | a definition missing `path` or `artifact` is rejected, naming that field |
| ReadFile.ParseConfigDefinition | recipe_executor/steps/read_file.py:10-21 | validation recovers every configuration from its definition |
| ReadFile.ConfigDefinitionOfParse | recipe_executor/steps/read_file.py:10-21 | a validated configuration written back agrees with its definition on every configuration field the definition gives |
| ReadFile.NewReadFileStep | recipe_executor/steps/read_file.py:33-35 | a step is built exactly when validation succeeds, holding the validated configuration |
| ReadFile.ReadFileStep.constructor | recipe_executor/steps/read_file.py:33-35 | the step holds the given configuration |
| ReadFile.ExecuteSpec | recipe_executor/steps/read_file.py:37-78 | a raise leaves the artifacts unchanged; completing writes the artifact key and no other |
| ReadFile.MissingOptionalFileStoresEmpty | recipe_executor/steps/read_file.py:57-61 | a missing optional file completes with "" stored under the artifact name |
| ReadFile.MissingRequiredFileRaises | recipe_executor/steps/read_file.py:62-65 | a missing required file raises not-found with a message naming the rendered path, and the artifacts are unchanged |
| ReadFile.ExistingFileStored | recipe_executor/steps/read_file.py:69-77 | an existing readable file completes with its text under the artifact name |
| ReadFile.UnreadableFileReraises | recipe_executor/steps/read_file.py:69-74 | a read failure is re-raised and the artifacts are unchanged |
| ReadFile.CompletesIff | recipe_executor/steps/read_file.py:53-77 | the step completes if and only if the path renders and the file there is readable, or is missing and optional |
| ReadFile.OnlyRenderedPathMatters | recipe_executor/steps/read_file.py:53-70 | the existence check and the read use the one path rendered before any write: file systems agreeing there give the same run |
| ReadFile.ReadFileStep.Execute | recipe_executor/steps/read_file.py:37-78 | the outcome and the context's new artifacts are those of `ExecuteSpec` on the old artifacts |

## Left out

- Language-model calls: `parse_recipe_from_text`, `parse_to_model` and the agents, retries and exceptions behind them. These are network calls through a library that is not part of this model.
- `_extract_partial_result`: its body is empty.
- The hard-coded fallback recipe: its validation goes through a recipe schema that is not part of this model.
- Concrete model classes: the Anthropic, OpenAI, Gemini, Groq and Mistral classes are foreign, so they are modelled as tags only.
- The `temperature` setting: a float passed straight to the model.
- The regular-expression engine (`re.findall` with DOTALL): its matches are inputs.
- RecipeParser.SuggestStepsFromContent: requires one match list for each of the three patterns, as `re.findall` over the fixed pattern list always gives.
- Text.Lower: lower-cases ASCII letters only. The only non-ASCII characters whose Python lower-case form contains ASCII letters are U+0130 (to "i" plus a combining dot) and U+212A (to "k"). No keyword or trigger word contains "k", and none ends in "i", so no keyword test can change.
- Real file I/O and UTF-8 decoding: the file system is a map, and a failed open or decode is the single `Unreadable` entry.
- `render_template`: it is a parameter, so its own behaviour and its exceptions' types are not modelled. A rendering failure propagates as `RenderError` with the artifacts unchanged.
- Logging.
- Context values: the model uses strings only. The step stores only strings, and rendering sees the context only through the renderer.
- ReadFile.ParseReadFileConfig: accepts only a string for `path` and `artifact` and only a boolean for `optional`. Lax coercions (such as "yes" or 1 for true) and the base step configuration's own settings are not modelled.
- The Context class source and the base step class are not part of this model. `Context` models only the map and item assignment that the step uses.
- The sub-recipe step (`recipe_executor/steps/execute_recipe.py`) is not modelled. It checks that a path exists and delegates to an executor that is not part of this model.
- The executor and the chain, conditional and parallel steps are not part of this model.
