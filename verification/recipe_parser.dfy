/** The deterministic text heuristics of the natural-language recipe parser:
    recipe-type inference, step suggestions, the system prompt and the
    provider dispatch that chooses the language-model backend. The language
    model calls themselves are not part of this module. */
module RecipeParser {
  import opened Results
  import opened Text

  // ---------------------------------------------------------------------
  // Recipe-type inference
  // ---------------------------------------------------------------------

  /** Every tag `InferRecipeType` can produce. */
  const RecipeTypes: set<string> :=
    {"analyzer", "generator", "processor", "transformer", "validator", "extractor", "content"}

  /** Classifies recipe text by the first keyword pair found in its
      lower-cased form; "content" when no pair occurs. */
  function InferRecipeType(content: string): (r: string)
    ensures r in RecipeTypes
  {
    var lower := Lower(content);
    if Contains(lower, "analyzer") || Contains(lower, "analysis") then "analyzer"
    else if Contains(lower, "generator") || Contains(lower, "generate") then "generator"
    else if Contains(lower, "processor") || Contains(lower, "process") then "processor"
    else if Contains(lower, "transformer") || Contains(lower, "transform") then "transformer"
    else if Contains(lower, "validator") || Contains(lower, "validate") then "validator"
    else if Contains(lower, "extractor") || Contains(lower, "extract") then "extractor"
    else "content"
  }

  /** One row of the classification table: either keyword selects the tag. */
  datatype TypeRule = TypeRule(keyword: string, alternative: string, tag: string)

  /** The keyword pairs in priority order, as an independent, table-driven
      statement of the classification. */
  const TypeRules: seq<TypeRule> := [
    TypeRule("analyzer", "analysis", "analyzer"),
    TypeRule("generator", "generate", "generator"),
    TypeRule("processor", "process", "processor"),
    TypeRule("transformer", "transform", "transformer"),
    TypeRule("validator", "validate", "validator"),
    TypeRule("extractor", "extract", "extractor")
  ]

  predicate RuleFires(lower: string, rule: TypeRule) {
    Contains(lower, rule.keyword) || Contains(lower, rule.alternative)
  }

  /** The index of the first rule that fires on `lower`, if any. */
  function FirstFiringRule(lower: string, rules: seq<TypeRule>): (r: Option<nat>)
    ensures r.Some? ==> r.value < |rules| && RuleFires(lower, rules[r.value])
    ensures r.Some? ==> forall k | 0 <= k < r.value :: !RuleFires(lower, rules[k])
    ensures r.None? <==> forall k | 0 <= k < |rules| :: !RuleFires(lower, rules[k])
  {
    if rules == [] then None
    else if RuleFires(lower, rules[0]) then Some(0)
    else match FirstFiringRule(lower, rules[1..])
      case None => None
      case Some(k) => Some(k + 1)
  }

  /** The tag of the first firing rule, "content" when none fires. */
  function ClassifyByTable(content: string): string {
    match FirstFiringRule(Lower(content), TypeRules)
    case Some(k) => TypeRules[k].tag
    case None => "content"
  }

  /** The if/elif chain is first-match-wins over the ordered table: the
      result is the tag of the first keyword pair present, and a later pair
      decides only when every earlier pair is absent. */
  lemma InferRecipeTypeIsFirstMatch(content: string)
    ensures InferRecipeType(content) == ClassifyByTable(content)
  {
    var lower := Lower(content);
    match FirstFiringRule(lower, TypeRules)
    case None =>
      assert !RuleFires(lower, TypeRules[0]) && !RuleFires(lower, TypeRules[1]);
      assert !RuleFires(lower, TypeRules[2]) && !RuleFires(lower, TypeRules[3]);
      assert !RuleFires(lower, TypeRules[4]) && !RuleFires(lower, TypeRules[5]);
    case Some(k) =>
      if k >= 1 { assert !RuleFires(lower, TypeRules[0]); }
      if k >= 2 { assert !RuleFires(lower, TypeRules[1]); }
      if k >= 3 { assert !RuleFires(lower, TypeRules[2]); }
      if k >= 4 { assert !RuleFires(lower, TypeRules[3]); }
      if k >= 5 { assert !RuleFires(lower, TypeRules[4]); }
  }

  /** Text mentioning "analyzer" or "analysis" is an analyzer recipe,
      whatever other keywords it holds. */
  lemma AnalyzerTakesPriority(content: string)
    requires Contains(Lower(content), "analyzer") || Contains(Lower(content), "analysis")
    ensures InferRecipeType(content) == "analyzer"
  {
  }

  /** Classification ignores case: text and its lower-cased form get the
      same tag. */
  lemma InferRecipeTypeIgnoresCase(content: string)
    ensures InferRecipeType(Lower(content)) == InferRecipeType(content)
  {
    LowerIdempotent(content);
  }

  /** Each long keyword of the classification contains its shorter partner. */
  lemma LongKeywordsContainShortOnes()
    ensures Contains("processor", "process")
    ensures Contains("transformer", "transform")
    ensures Contains("extractor", "extract")
  {
    ContainsPrefix("process", "or");
    assert "process" + "or" == "processor";
    ContainsPrefix("transform", "er");
    assert "transform" + "er" == "transformer";
    ContainsPrefix("extract", "or");
    assert "extract" + "or" == "extractor";
  }

  /** "processor", "transformer" and "extractor" each contain their shorter
      partner, so those three tags are decided by the shorter keyword alone. */
  lemma ShortKeywordDecides(content: string)
    ensures var lower := Lower(content);
      var analyzer := Contains(lower, "analyzer") || Contains(lower, "analysis");
      var generator := Contains(lower, "generator") || Contains(lower, "generate");
      var validator := Contains(lower, "validator") || Contains(lower, "validate");
      && (InferRecipeType(content) == "processor" <==>
            !analyzer && !generator && Contains(lower, "process"))
      && (InferRecipeType(content) == "transformer" <==>
            !analyzer && !generator && !Contains(lower, "process") && Contains(lower, "transform"))
      && (InferRecipeType(content) == "extractor" <==>
            !analyzer && !generator && !Contains(lower, "process") && !Contains(lower, "transform")
            && !validator && Contains(lower, "extract"))
  {
    var lower := Lower(content);
    LongKeywordsContainShortOnes();
    if Contains(lower, "processor") { ContainsTransitive(lower, "processor", "process"); }
    if Contains(lower, "transformer") { ContainsTransitive(lower, "transformer", "transform"); }
    if Contains(lower, "extractor") { ContainsTransitive(lower, "extractor", "extract"); }
  }

  /** None of the twelve classification keywords occurs in `lower`. */
  predicate MentionsNoTypeKeyword(lower: string) {
    && !Contains(lower, "analyzer") && !Contains(lower, "analysis")
    && !Contains(lower, "generator") && !Contains(lower, "generate")
    && !Contains(lower, "processor") && !Contains(lower, "process")
    && !Contains(lower, "transformer") && !Contains(lower, "transform")
    && !Contains(lower, "validator") && !Contains(lower, "validate")
    && !Contains(lower, "extractor") && !Contains(lower, "extract")
  }

  /** The default tag is chosen exactly when no keyword occurs. */
  lemma ContentIffNoKeyword(content: string)
    ensures InferRecipeType(content) == "content" <==> MentionsNoTypeKeyword(Lower(content))
  {
  }

  // ---------------------------------------------------------------------
  // Step suggestions
  // ---------------------------------------------------------------------

  /** The explicit-step patterns, tried in this order; the model receives,
      for each of them, the list of matches the regular-expression engine
      found (`re.findall` with DOTALL). */
  const StepPatterns: seq<string> := [
    @"\d+\.\s+(.*?)(?=\d+\.\s+|$)",
    @"Step\s+\d+[:\.\)]\s+(.*?)(?=Step\s+\d+|$)",
    @"First,\s+(.*?)(?:Second,|Next,|Then,|Finally,|$)"
  ]

  /** At most this many explicit suggestions are returned. */
  const MaxExplicitSuggestions: nat := 5

  /** Non-empty, with no leading or trailing whitespace. */
  predicate IsStripped(s: string) {
    s != [] && !IsSpace(s[0]) && !IsSpace(s[|s| - 1])
  }

  /** A suggestion line: "- " followed by a stripped, non-empty step. */
  predicate IsBullet(line: string) {
    |line| > 2 && line[..2] == "- " && IsStripped(line[2..])
  }

  /** The bullet one match yields: its stripped text after "- ", or none
      when the match is whitespace only. */
  function Bullet(matched: string): (bullet: seq<string>)
    ensures |bullet| <= 1
  {
    var step := Strip(matched);
    if step == "" then [] else ["- " + step]
  }

  /** A match yields a bullet unless it is whitespace only, and the bullet
      is a well-formed suggestion line carrying the stripped match. */
  lemma BulletShape(matched: string)
    ensures var bullet := Bullet(matched);
      && (bullet == [] <==> forall i | 0 <= i < |matched| :: IsSpace(matched[i]))
      && (bullet != [] ==> IsBullet(bullet[0]) && bullet[0][2..] == Strip(matched))
  {
    StripEmpty(matched);
    StripTrimsBothEnds(matched);
    var step := Strip(matched);
    if step != "" {
      assert ("- " + step)[2..] == step;
    }
  }

  /** The bullets one pattern's matches yield: each match stripped, the
      empty ones dropped, the rest prefixed with "- ", in match order. */
  function ExplicitSteps(matches: seq<string>): (steps: seq<string>)
    ensures |steps| <= |matches|
  {
    if matches == [] then [] else Bullet(matches[0]) + ExplicitSteps(matches[1..])
  }

  /** Every explicit suggestion is a well-formed bullet line. */
  lemma {:induction false} ExplicitStepsAreBullets(matches: seq<string>)
    ensures forall k | 0 <= k < |ExplicitSteps(matches)| :: IsBullet(ExplicitSteps(matches)[k])
  {
    if matches != [] {
      var head, rest := Bullet(matches[0]), ExplicitSteps(matches[1..]);
      BulletShape(matches[0]);
      ExplicitStepsAreBullets(matches[1..]);
      forall k | 0 <= k < |head + rest| ensures IsBullet((head + rest)[k]) {
        if k < |head| {
          assert (head + rest)[k] == head[0];
        } else {
          assert (head + rest)[k] == rest[k - |head|];
        }
      }
    }
  }

  /** A pattern yields no bullet exactly when each of its matches is
      whitespace only. */
  lemma {:induction false} ExplicitStepsEmpty(matches: seq<string>)
    ensures ExplicitSteps(matches) == [] <==> forall j | 0 <= j < |matches| :: Strip(matches[j]) == ""
  {
    if matches != [] {
      ExplicitStepsEmpty(matches[1..]);
      assert ExplicitSteps(matches) == [] <==>
        Bullet(matches[0]) == [] && ExplicitSteps(matches[1..]) == [];
      assert forall j | 1 <= j < |matches| :: matches[1..][j - 1] == matches[j];
    }
  }

  /** Bullets keep the order of the matches: the bullets of a concatenation
      are the bullets of its parts, one after the other. */
  lemma {:induction false} ExplicitStepsConcat(first: seq<string>, second: seq<string>)
    ensures ExplicitSteps(first + second) == ExplicitSteps(first) + ExplicitSteps(second)
  {
    if first == [] {
      assert first + second == second;
    } else {
      assert (first + second)[0] == first[0];
      assert (first + second)[1..] == first[1..] + second;
      ExplicitStepsConcat(first[1..], second);
    }
  }

  /** A single match yields exactly its own bullet. */
  lemma ExplicitStepsOfOne(matched: string)
    ensures ExplicitSteps([matched]) == Bullet(matched)
  {
  }

  /** The bullets of every pattern, in pattern order. */
  function PatternSteps(patternMatches: seq<seq<string>>): (steps: seq<seq<string>>)
    ensures |steps| == |patternMatches|
  {
    if patternMatches == [] then []
    else [ExplicitSteps(patternMatches[0])] + PatternSteps(patternMatches[1..])
  }

  lemma {:induction false} PatternStepsAt(patternMatches: seq<seq<string>>, p: nat)
    requires p < |patternMatches|
    ensures PatternSteps(patternMatches)[p] == ExplicitSteps(patternMatches[p])
  {
    if p > 0 {
      PatternStepsAt(patternMatches[1..], p - 1);
    }
  }

  /** The index of the first non-empty list, if any. */
  function FirstNonEmpty<T>(lists: seq<seq<T>>): (r: Option<nat>)
    ensures r.Some? ==> r.value < |lists| && lists[r.value] != []
    ensures r.Some? ==> forall q | 0 <= q < r.value :: lists[q] == []
    ensures r.None? <==> forall q | 0 <= q < |lists| :: lists[q] == []
  {
    if lists == [] then None
    else if lists[0] != [] then Some(0)
    else match FirstNonEmpty(lists[1..])
      case None => None
      case Some(q) => Some(q + 1)
  }

  /** The first non-empty list is the one after only empty lists. */
  lemma FirstNonEmptyIs<T>(lists: seq<seq<T>>, p: nat)
    requires p < |lists| && lists[p] != []
    requires forall q | 0 <= q < p :: lists[q] == []
    ensures FirstNonEmpty(lists) == Some(p)
  {
  }

  const ReadSuggestion: string := "- Read files or data sources"
  const ProcessSuggestion: string := "- Process or analyze the data"
  const GenerateSuggestion: string := "- Generate content using LLM"
  const WriteSuggestion: string := "- Write results to files"

  /** The suggestion used when neither a pattern nor a keyword applies. */
  const DefaultSuggestions: seq<string> := ["- Read input data", "- Process data", "- Generate output"]

  predicate MentionsRead(content: string) {
    Contains(Lower(content), "read") || Contains(Lower(content), "load")
  }
  predicate MentionsProcess(content: string) {
    Contains(Lower(content), "process") || Contains(Lower(content), "analyze")
  }
  predicate MentionsGenerate(content: string) {
    Contains(Lower(content), "generate")
  }
  predicate MentionsWrite(content: string) {
    Contains(Lower(content), "write") || Contains(Lower(content), "save")
    || Contains(Lower(content), "output")
  }

  /** The default lines joined are the literal default text. */
  lemma DefaultSuggestionText()
    ensures Join(DefaultSuggestions, "\n") == "- Read input data\n- Process data\n- Generate output"
  {
    var last: seq<string> := ["- Generate output"];
    var tail: seq<string> := ["- Process data", "- Generate output"];
    assert tail[1..] == last;
    assert Join(tail, "\n") == "- Process data" + "\n" + "- Generate output";
    assert DefaultSuggestions[1..] == tail;
    assert Join(DefaultSuggestions, "\n") == "- Read input data" + "\n" + Join(tail, "\n");
  }

  /** Some trigger word of the keyword suggestions occurs. */
  predicate MentionsAnyTrigger(content: string) {
    MentionsRead(content) || MentionsProcess(content) || MentionsGenerate(content)
    || MentionsWrite(content)
  }

  /** The keyword-triggered suggestions, possibly none. */
  function KeywordSuggestions(content: string): (lines: seq<string>)
    ensures |lines| <= 4
    ensures lines == [] <==> !MentionsAnyTrigger(content)
  {
    (if MentionsRead(content) then [ReadSuggestion] else [])
    + (if MentionsProcess(content) then [ProcessSuggestion] else [])
    + (if MentionsGenerate(content) then [GenerateSuggestion] else [])
    + (if MentionsWrite(content) then [WriteSuggestion] else [])
  }

  /** The suggestion lines for `content`, given each pattern's matches. */
  function SuggestedSteps(content: string, patternMatches: seq<seq<string>>): (lines: seq<string>)
    ensures 1 <= |lines| <= MaxExplicitSuggestions
  {
    var steps := PatternSteps(patternMatches);
    match FirstNonEmpty(steps)
    case Some(p) => Take(steps[p], MaxExplicitSuggestions)
    case None =>
      var keywords := KeywordSuggestions(content);
      if keywords != [] then keywords else DefaultSuggestions
  }

  /** Explicit path: once some pattern yields a bullet, the first such
      pattern alone decides the lines, which are its first five bullets, and
      the wording of the text no longer matters. */
  lemma ExplicitPatternDecides(content: string, patternMatches: seq<seq<string>>, p: nat)
    requires p < |patternMatches| && ExplicitSteps(patternMatches[p]) != []
    requires forall q | 0 <= q < p :: ExplicitSteps(patternMatches[q]) == []
    ensures var lines := SuggestedSteps(content, patternMatches);
      && lines == Take(ExplicitSteps(patternMatches[p]), MaxExplicitSuggestions)
      && 1 <= |lines| <= MaxExplicitSuggestions
      && forall k | 0 <= k < |lines| :: IsBullet(lines[k])
  {
    var steps := PatternSteps(patternMatches);
    forall q | 0 <= q < p ensures steps[q] == [] {
      PatternStepsAt(patternMatches, q);
    }
    PatternStepsAt(patternMatches, p);
    FirstNonEmptyIs(steps, p);
    ExplicitStepsAreBullets(patternMatches[p]);
  }

  /** Keyword path: each keyword line is present exactly when its trigger
      occurs in the lower-cased text. */
  lemma KeywordSuggestionPresence(content: string)
    ensures ReadSuggestion in KeywordSuggestions(content) <==> MentionsRead(content)
    ensures ProcessSuggestion in KeywordSuggestions(content) <==> MentionsProcess(content)
    ensures GenerateSuggestion in KeywordSuggestions(content) <==> MentionsGenerate(content)
    ensures WriteSuggestion in KeywordSuggestions(content) <==> MentionsWrite(content)
  {
  }

  /** Position of a keyword line in the fixed order read, process, generate,
      write. */
  function SuggestionRank(line: string): nat {
    if line == ReadSuggestion then 0
    else if line == ProcessSuggestion then 1
    else if line == GenerateSuggestion then 2
    else 3
  }

  /** Keyword path: the lines always come in the order read, process,
      generate, write, each at most once. */
  lemma KeywordSuggestionOrder(content: string)
    ensures var lines := KeywordSuggestions(content);
      forall i, j | 0 <= i < j < |lines| :: SuggestionRank(lines[i]) < SuggestionRank(lines[j])
  {
  }

  /** With no pattern yielding a bullet and no trigger word, the three-line
      default is returned; otherwise the keyword lines are. */
  lemma KeywordFallback(content: string, patternMatches: seq<seq<string>>)
    requires forall q | 0 <= q < |patternMatches| :: ExplicitSteps(patternMatches[q]) == []
    ensures var lines := SuggestedSteps(content, patternMatches);
      && (!MentionsAnyTrigger(content) ==> lines == DefaultSuggestions)
      && (MentionsAnyTrigger(content) ==> lines == KeywordSuggestions(content))
      && 1 <= |lines| <= 4
  {
    var steps := PatternSteps(patternMatches);
    forall q | 0 <= q < |steps| ensures steps[q] == [] {
      PatternStepsAt(patternMatches, q);
    }
  }

  /** The bullets one pattern's matches contribute, in match order: the
      inner loop of the explicit phase. */
  method CollectBullets(matches: seq<string>) returns (suggested: seq<string>)
    ensures suggested == ExplicitSteps(matches)
  {
    suggested := [];
    for k := 0 to |matches|
      invariant suggested == ExplicitSteps(matches[..k])
    {
      var step := Strip(matches[k]);
      assert matches[..k + 1] == matches[..k] + [matches[k]];
      ExplicitStepsConcat(matches[..k], [matches[k]]);
      ExplicitStepsOfOne(matches[k]);
      if step != "" {
        suggested := suggested + ["- " + step];
      }
    }
    assert matches[..|matches|] == matches;
  }

  /** The keyword phase: one fixed line per trigger the text mentions, in
      the order read, process, generate, write. */
  method CollectKeywordLines(content: string) returns (suggested: seq<string>)
    ensures suggested == KeywordSuggestions(content)
  {
    suggested := [];
    if MentionsRead(content) {
      suggested := suggested + [ReadSuggestion];
    }
    ghost var upToRead := suggested;
    if MentionsProcess(content) {
      suggested := suggested + [ProcessSuggestion];
    }
    assert suggested == upToRead + if MentionsProcess(content) then [ProcessSuggestion] else [];
    ghost var upToProcess := suggested;
    if MentionsGenerate(content) {
      suggested := suggested + [GenerateSuggestion];
    }
    assert suggested == upToProcess + if MentionsGenerate(content) then [GenerateSuggestion] else [];
    ghost var upToGenerate := suggested;
    if MentionsWrite(content) {
      suggested := suggested + [WriteSuggestion];
    }
    assert suggested == upToGenerate + if MentionsWrite(content) then [WriteSuggestion] else [];
  }

  /** The newline-joined suggestion text: the explicit phase tries each
      pattern in turn and stops at the first one that yields a bullet; only
      when none does are the keyword lines, or failing those the default
      lines, used. */
  method SuggestStepsFromContent(content: string, patternMatches: seq<seq<string>>)
    returns (suggestion: string)
    requires |patternMatches| == |StepPatterns|
    ensures suggestion == Join(SuggestedSteps(content, patternMatches), "\n")
  {
    for p := 0 to |patternMatches|
      invariant forall q | 0 <= q < p :: ExplicitSteps(patternMatches[q]) == []
    {
      var matches := patternMatches[p];
      if matches != [] {
        var suggested := CollectBullets(matches);
        if suggested != [] {
          ExplicitPatternDecides(content, patternMatches, p);
          suggestion := Join(Take(suggested, MaxExplicitSuggestions), "\n");
          return;
        }
      }
    }
    KeywordFallback(content, patternMatches);
    var suggested := CollectKeywordLines(content);
    if suggested != [] {
      suggestion := Join(suggested, "\n");
    } else {
      suggestion := "- Read input data\n- Process data\n- Generate output";
      DefaultSuggestionText();
    }
  }

  // ---------------------------------------------------------------------
  // System prompt
  // ---------------------------------------------------------------------

  /** The fixed prompt describing the recipe format. */
  const BasePrompt: string := @"
        You are an expert system that converts natural language recipe descriptions into structured recipe objects.

        A recipe MUST always contain these required fields:
        - metadata: Contains name (required), description, and other optional metadata
        - steps: An array of step objects that define the workflow (must have at least one step)

        A recipe MAY also contain these optional fields:
        - model: Configuration for the LLM model to use
        - variables: Initial variables for the recipe
        - validation_level: Default validation level for all steps
        - interaction_mode: How the executor interacts with users
        - timeout: Overall timeout for the entire recipe in seconds

        Each step MUST have these fields:
        - id: A unique identifier for the step
        - type: The type of step (see available types below)
        - Plus a configuration object matching the step type (e.g., if type is ""llm_generate"", include an ""llm_generate"" object)

        Available step types:
        - llm_generate: For generating content with LLMs
        - file_read: For reading files
        - file_write: For writing files
        - template_substitute: For substituting variables in templates
        - json_process: For processing JSON data
        - python_execute: For executing Python code
        - conditional: For conditional execution
        - chain: For executing steps in sequence
        - parallel: For executing steps in parallel
        - validator: For validating data
        - wait_for_input: For waiting for user input
        - api_call: For making API calls

        EXAMPLE RECIPE:
        {
          ""metadata"": {
            ""name"": ""Simple Content Generator"",
            ""description"": ""Generates and saves content based on a topic""
          },
          ""model"": {
            ""name"": ""claude-3-7-sonnet-20250219"",
            ""provider"": ""anthropic""
          },
          ""variables"": {
            ""topic"": ""AI safety""
          },
          ""steps"": [
            {
              ""id"": ""generate_content"",
              ""name"": ""Generate Content"",
              ""type"": ""llm_generate"",
              ""llm_generate"": {
                ""prompt"": ""Write a 500-word article about {{topic}}."",
                ""output_variable"": ""article_content""
              }
            },
            {
              ""id"": ""save_content"",
              ""name"": ""Save Content"",
              ""type"": ""file_write"",
              ""file_write"": {
                ""path"": ""output/article.md"",
                ""content"": ""{{article_content}}""
              }
            }
          ]
        }

        Carefully analyze the natural language description and extract all steps, their configurations,
        dependencies, and execution flow. Ensure the structured recipe includes ALL required fields and
        accurately represents the intended behavior.

        IMPORTANT: You MUST include at least one step in the 'steps' array.
        "

  /** The extra guidance appended for analyzer recipes (its two leading
      newlines and first space are written apart from the rest). */
  const AnalyzerGuidance: string := "\n\n " + @"           For an analyzer recipe, you MUST include these types of steps in order:
            1. Read input data from files or APIs
            2. Process and analyze the data (parse JSON, extract information)
            3. Generate insights or run statistical analysis
            4. Create visualizations or reports
            5. Write results to output files

            EXAMPLE ANALYZER RECIPE:
            {
              ""metadata"": {
                ""name"": ""Content Performance Analyzer"",
                ""description"": ""Analyzes content performance metrics and generates a report""
              },
              ""model"": {
                ""name"": ""claude-3-7-sonnet-20250219"",
                ""provider"": ""anthropic"",
                ""temperature"": 0.2
              },
              ""variables"": {
                ""analysis_prompt"": ""Analyze the given content and identify performance patterns.""
              },
              ""steps"": [
                {
                  ""id"": ""read_config"",
                  ""name"": ""Read Configuration"",
                  ""type"": ""file_read"",
                  ""file_read"": {
                    ""path"": ""data/config.json"",
                    ""output_variable"": ""config""
                  }
                },
                {
                  ""id"": ""read_content"",
                  ""name"": ""Read Content Files"",
                  ""type"": ""python_execute"",
                  ""python_execute"": {
                    ""code"": ""import json\nimport os\n\nfiles = []\nfor f in os.listdir('data/articles'):\n    if f.endswith('.json'):\n        with open(f'data/articles/{f}') as file:\n            files.append(json.load(file))\nreturn files"",
                    ""output_variable"": ""articles""
                  }
                },
                {
                  ""id"": ""analyze"",
                  ""name"": ""Analyze Content"",
                  ""type"": ""llm_generate"",
                  ""llm_generate"": {
                    ""prompt"": ""{{analysis_prompt}}\n\nContent: {{articles}}"",
                    ""output_variable"": ""analysis"",
                    ""output_format"": ""text""
                  }
                },
                {
                  ""id"": ""save_report"",
                  ""name"": ""Save Report"",
                  ""type"": ""file_write"",
                  ""file_write"": {
                    ""path"": ""output/report.md"",
                    ""content"": ""# Analysis Report\n\n{{analysis}}""
                  }
                }
              ]
            }

            Ensure you include all necessary processing steps to handle the data analysis pipeline and that each step has its required configuration properties.
            "

  /** The sentence appended for any other non-empty recipe type. */
  function TypeHint(recipeType: string): (hint: string)
    ensures |hint| > 2 && hint[..2] == "\n\n"
    ensures Contains(hint, recipeType)
  {
    var lead := "\n\nThis is a ";
    var hint := lead + recipeType + " recipe. Pay special attention to "
      + recipeType + "-specific patterns and requirements.";
    assert hint[|lead|..|lead| + |recipeType|] == recipeType;
    assert OccursAt(hint, recipeType, |lead|);
    hint
  }

  /** `_create_system_prompt`: the base prompt, followed by the analyzer
      guidance for "analyzer", by a one-sentence hint for any other
      non-empty type, and by nothing for no type or the empty type. */
  method CreateSystemPrompt(recipeType: Option<string>) returns (prompt: string)
    ensures |BasePrompt| <= |prompt| && prompt[..|BasePrompt|] == BasePrompt
    ensures recipeType == Some("analyzer") ==> prompt == BasePrompt + AnalyzerGuidance
    ensures recipeType.Some? && recipeType.value !in {"", "analyzer"} ==>
              prompt == BasePrompt + TypeHint(recipeType.value)
    ensures recipeType.None? || recipeType == Some("") ==> prompt == BasePrompt
  {
    prompt := BasePrompt;
    if recipeType == Some("analyzer") {
      prompt := prompt + AnalyzerGuidance;
    } else if recipeType.Some? && recipeType.value != "" {
      prompt := prompt + TypeHint(recipeType.value);
    }
  }

  /** The hint names its type: two types get the same hint only if they are
      the same type. */
  lemma TypeHintInjective(a: string, b: string)
    requires TypeHint(a) == TypeHint(b)
    ensures a == b
  {
    var lead := "\n\nThis is a ";
    var middle := " recipe. Pay special attention to ";
    var tail := "-specific patterns and requirements.";
    assert TypeHint(a) == lead + a + middle + a + tail;
    assert TypeHint(b) == lead + b + middle + b + tail;
    assert |a| == |b|;
    assert (lead + a + middle + a + tail)[|lead|..|lead| + |a|] == a;
    assert (lead + b + middle + b + tail)[|lead|..|lead| + |b|] == b;
  }

  /** No hint coincides with the analyzer guidance, so the prompt tells an
      analyzer recipe apart from every other type. */
  lemma TypeHintIsNotAnalyzerGuidance(recipeType: string)
    ensures TypeHint(recipeType) != AnalyzerGuidance
  {
    assert TypeHint(recipeType)[2] == 'T';
    assert AnalyzerGuidance[2] == ' ';
  }

  // ---------------------------------------------------------------------
  // Provider dispatch
  // ---------------------------------------------------------------------

  /** The parser's model settings (the sampling temperature is not modelled). */
  datatype ParserSettings = ParserSettings(modelName: string, modelProvider: string)

  /** The settings a parser is created with when none are given. */
  const DefaultSettings: ParserSettings := ParserSettings("claude-3-7-sonnet-20250219", "anthropic")

  /** The model object handed to the agent: one tag per supported backend,
      or the "provider:name" string for any other provider. */
  datatype ProviderModel =
    | AnthropicModel(name: string)
    | OpenAIModel(name: string)
    | GeminiModel(name: string)
    | GroqModel(name: string)
    | MistralModel(name: string)
    | ModelString(spec: string)

  const KnownProviders: set<string> := {"anthropic", "openai", "google", "groq", "mistral"}

  /** `_create_model_for_provider`: a backend tag carrying the model name for
      the five known providers, else the string "provider:name". */
  function CreateModelForProvider(settings: ParserSettings): (m: ProviderModel)
    ensures m.ModelString? <==> settings.modelProvider !in KnownProviders
    ensures !m.ModelString? ==> m.name == settings.modelName
    ensures m.ModelString? ==> m.spec == settings.modelProvider + ":" + settings.modelName
  {
    var name := settings.modelName;
    match settings.modelProvider
    case "anthropic" => AnthropicModel(name)
    case "openai" => OpenAIModel(name)
    case "google" => GeminiModel(name)
    case "groq" => GroqModel(name)
    case "mistral" => MistralModel(name)
    case _ => ModelString(settings.modelProvider + ":" + name)
  }

  /** A parser created without settings uses the Anthropic backend with
      the default model name. */
  lemma DefaultSettingsSelectAnthropic()
    ensures CreateModelForProvider(DefaultSettings) == AnthropicModel("claude-3-7-sonnet-20250219")
  {
  }

  /** Splits at the first colon, as `s.split(":", 1)` does; a string without
      a colon is all provider and an empty name. */
  function SplitAtFirstColon(s: string): (parts: (string, string)) {
    if s == [] then ("", "")
    else if s[0] == ':' then ("", s[1..])
    else var rest := SplitAtFirstColon(s[1..]); ([s[0]] + rest.0, rest.1)
  }

  /** Reads provider and model name back from a model object. */
  function ProviderAndName(m: ProviderModel): (string, string) {
    match m
    case AnthropicModel(name) => ("anthropic", name)
    case OpenAIModel(name) => ("openai", name)
    case GeminiModel(name) => ("google", name)
    case GroqModel(name) => ("groq", name)
    case MistralModel(name) => ("mistral", name)
    case ModelString(spec) => SplitAtFirstColon(spec)
  }

  lemma {:induction false} SplitAtFirstColonOfJoin(provider: string, name: string)
    requires ':' !in provider
    ensures SplitAtFirstColon(provider + ":" + name) == (provider, name)
  {
    if provider == [] {
      assert provider + ":" + name == [':'] + name;
    } else {
      assert (provider + ":" + name)[1..] == provider[1..] + ":" + name;
      SplitAtFirstColonOfJoin(provider[1..], name);
      assert [provider[0]] + provider[1..] == provider;
    }
  }

  /** Dispatch loses nothing: the provider and the model name can be read
      back from the model object, for every provider without a colon in its
      name (the five known ones included). */
  lemma ProviderRoundTrip(settings: ParserSettings)
    requires ':' !in settings.modelProvider
    ensures ProviderAndName(CreateModelForProvider(settings))
            == (settings.modelProvider, settings.modelName)
  {
    if settings.modelProvider !in KnownProviders {
      SplitAtFirstColonOfJoin(settings.modelProvider, settings.modelName);
    }
  }
}
