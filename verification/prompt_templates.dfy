/** `PromptTemplateManager`: checks the options of a refine or feedback
    prompt in a fixed order, shortens over-long text at a word boundary, and
    assembles the prompt from fixed Korean or English pieces, numbered custom
    rules or focus areas, criteria lines and an optional context line. */
module PromptTemplates {
  import opened Values
  import opened JsString

  datatype FocusArea = Clarity | Structure | Grammar | Tone | Style | Logic

  /** `RefinePromptOptions`; absent custom rules are the empty list and an
      absent `costOptimized` is `false`. */
  datatype RefineOptions = RefineOptions(
    text: string, language: string, style: string, context: Option<string>,
    customRules: seq<string>, maxLength: Option<int>, costOptimized: bool)

  /** `FeedbackPromptOptions`; an absent focus-area list is the empty list,
      and the criteria are the record's entries in `Object.entries` order:
      integer-like keys first in ascending order, then the other keys in
      insertion order. */
  datatype FeedbackOptions = FeedbackOptions(
    text: string, language: string, focusAreas: seq<FocusArea>,
    criteria: Option<seq<(string, string)>>, context: Option<string>, costOptimized: bool)

  const Languages: seq<string> := ["ko", "en"]
  const Styles: seq<string> := ["formal", "casual", "academic", "business"]

  const TextRequired := "Text is required"
  const UnsupportedLanguage := "Unsupported language"
  const UnsupportedStyle := "Unsupported style"
  const FocusAreaRequired := "At least one focus area is required"

  /** `validateRefineOptions`: the first failing check, or `None`. */
  function ValidateRefineOptions(o: RefineOptions): (r: Option<string>)
    ensures r.None? <==> !IsBlank(o.text) && o.language in Languages && o.style in Styles
    ensures IsBlank(o.text) ==> r == Some(TextRequired)
    ensures !IsBlank(o.text) && o.language !in Languages ==> r == Some(UnsupportedLanguage)
    ensures !IsBlank(o.text) && o.language in Languages && o.style !in Styles ==> r == Some(UnsupportedStyle)
  {
    if IsBlank(o.text) then Some(TextRequired)
    else if o.language !in Languages then Some(UnsupportedLanguage)
    else if o.style !in Styles then Some(UnsupportedStyle)
    else None
  }

  /** `validateFeedbackOptions`: the first failing check, or `None`. */
  function ValidateFeedbackOptions(o: FeedbackOptions): (r: Option<string>)
    ensures r.None? <==> !IsBlank(o.text) && o.language in Languages && |o.focusAreas| > 0
    ensures IsBlank(o.text) ==> r == Some(TextRequired)
    ensures !IsBlank(o.text) && o.language !in Languages ==> r == Some(UnsupportedLanguage)
    ensures !IsBlank(o.text) && o.language in Languages && |o.focusAreas| == 0 ==> r == Some(FocusAreaRequired)
  {
    if IsBlank(o.text) then Some(TextRequired)
    else if o.language !in Languages then Some(UnsupportedLanguage)
    else if |o.focusAreas| == 0 then Some(FocusAreaRequired)
    else None
  }

  // Truncation

  /** `s.substring(0, n)`: JavaScript clamps a negative end to 0 and an end
      past the string to its length. */
  function Prefix(s: string, n: int): (r: string)
    ensures n <= 0 ==> r == []
    ensures 0 <= n <= |s| ==> r == s[..n]
    ensures n >= |s| ==> r == s
  {
    if n <= 0 then [] else if n >= |s| then s else s[..n]
  }

  /** `k` is where `truncateText` cuts a text longer than `maxLength`: the
      last space before `maxLength` when it lies beyond 80% of `maxLength`
      (`5k > 4·maxLength`), otherwise `maxLength` itself. */
  predicate IsWordCut(text: string, maxLength: nat, k: nat)
    requires maxLength < |text|
  {
    && k <= maxLength
    && (k < maxLength ==>
          text[k] == ' ' && 5 * k > 4 * maxLength && forall j | k < j < maxLength :: text[j] != ' ')
    && (k == maxLength ==> forall j | 0 <= j < maxLength && 5 * j > 4 * maxLength :: text[j] != ' ')
  }

  /** Only one position is the cut. */
  lemma WordCutUnique(text: string, maxLength: nat, k1: nat, k2: nat)
    requires maxLength < |text|
    requires IsWordCut(text, maxLength, k1) && IsWordCut(text, maxLength, k2)
    ensures k1 == k2
  {
    if k1 < k2 {
      assert false;
    } else if k2 < k1 {
      assert false;
    }
  }

  /** `truncateText`: text within the limit is kept; longer text is cut at
      the word cut and gets `"..."`, so the result is at most three
      characters over the limit; a negative limit leaves only `"..."`. */
  function Truncate(text: string, maxLength: int): (r: string)
    ensures |text| <= maxLength ==> r == text
    ensures |text| > maxLength && maxLength < 0 ==> r == "..."
    ensures |text| > maxLength >= 0 ==>
      exists k: nat :: IsWordCut(text, maxLength, k) && r == text[..k] + "..."
    ensures |text| > maxLength >= 0 ==> |r| <= maxLength + 3
  {
    if |text| <= maxLength then text
    else
      var truncated := Prefix(text, maxLength);
      var idx := LastIndexOfChar(truncated, ' ');
      if 5 * idx > 4 * maxLength then
        var r := Prefix(truncated, idx) + "...";
        assert maxLength >= 0 ==> IsWordCut(text, maxLength, idx) && r == text[..idx] + "...";
        r
      else
        var r := truncated + "...";
        assert maxLength >= 0 ==> IsWordCut(text, maxLength, maxLength) by {
          if maxLength >= 0 {
            forall j | 0 <= j < maxLength && 5 * j > 4 * maxLength ensures text[j] != ' ' {
              assert truncated[j] == text[j];
            }
          }
        }
        r
  }

  // Prompt pieces

  /** `${n}. ${item}\n` for each item, numbering from `n`. */
  function NumberedFrom(items: seq<string>, n: nat): string
    decreases |items|
  {
    if items == [] then "" else NatToString(n) + ". " + items[0] + "\n" + NumberedFrom(items[1..], n + 1)
  }

  /** The numbered list of two consecutive parts is the first part's list
      followed by the second's, numbered on from where the first stopped. */
  lemma {:induction false} NumberedFromSplit(a: seq<string>, b: seq<string>, n: nat)
    ensures NumberedFrom(a + b, n) == NumberedFrom(a, n) + NumberedFrom(b, n + |a|)
    decreases |a|
  {
    if a != [] {
      assert (a + b)[1..] == a[1..] + b;
      NumberedFromSplit(a[1..], b, n + 1);
    } else {
      assert a + b == b;
    }
  }

  /** Item `i` of a list numbered from 1 appears as line `i + 1`, right
      after the lines of the items before it. */
  lemma NumberedLine(items: seq<string>, i: nat)
    requires i < |items|
    ensures OccursAt(NumberedFrom(items, 1), NatToString(i + 1) + ". " + items[i] + "\n",
      |NumberedFrom(items[..i], 1)|)
  {
    assert items == items[..i] + items[i..];
    NumberedFromSplit(items[..i], items[i..], 1);
    var line := NatToString(i + 1) + ". " + items[i] + "\n";
    assert NumberedFrom(items[i..], 1 + i) == line + NumberedFrom(items[i + 1..], i + 2) by {
      assert items[i..][0] == items[i] && items[i..][1..] == items[i + 1..];
    }
    var s := NumberedFrom(items, 1);
    var at := |NumberedFrom(items[..i], 1)|;
    assert s == NumberedFrom(items[..i], 1) + line + NumberedFrom(items[i + 1..], i + 2);
    assert s[at..at + |line|] == line;
  }

  /** `- ${key}: ${value}\n` for each criteria entry, in order. */
  function CriteriaLines(entries: seq<(string, string)>): string
    decreases |entries|
  {
    if entries == [] then "" else "- " + entries[0].0 + ": " + entries[0].1 + "\n" + CriteriaLines(entries[1..])
  }

  lemma {:induction false} CriteriaLinesSplit(a: seq<(string, string)>, b: seq<(string, string)>)
    ensures CriteriaLines(a + b) == CriteriaLines(a) + CriteriaLines(b)
    decreases |a|
  {
    if a != [] {
      assert (a + b)[1..] == a[1..] + b;
      CriteriaLinesSplit(a[1..], b);
    } else {
      assert a + b == b;
    }
  }

  /** Entry `i` appears as its own line right after the earlier entries'. */
  lemma CriteriaLine(entries: seq<(string, string)>, i: nat)
    requires i < |entries|
    ensures OccursAt(CriteriaLines(entries), "- " + entries[i].0 + ": " + entries[i].1 + "\n",
      |CriteriaLines(entries[..i])|)
  {
    assert entries == entries[..i] + entries[i..];
    CriteriaLinesSplit(entries[..i], entries[i..]);
    var line := "- " + entries[i].0 + ": " + entries[i].1 + "\n";
    assert CriteriaLines(entries[i..]) == line + CriteriaLines(entries[i + 1..]) by {
      assert entries[i..][0] == entries[i] && entries[i..][1..] == entries[i + 1..];
    }
    var s := CriteriaLines(entries);
    var at := |CriteriaLines(entries[..i])|;
    assert s == CriteriaLines(entries[..i]) + line + CriteriaLines(entries[i + 1..]);
    assert s[at..at + |line|] == line;
  }

  /** `if (context)`: a context is used when it is given and non-empty. */
  predicate HasContext(context: Option<string>) {
    context.Some? && context.value != ""
  }

  /** The labelled context line, or nothing. */
  function ContextLine(heading: string, context: Option<string>): string {
    if HasContext(context) then heading + context.value else ""
  }

  // Refine prompts

  /** The fixed pieces of a refine prompt in one language. */
  datatype RefineText = RefineText(
    basicIntro: string, detailedIntro: string, basicRules: string, detailedRules: string,
    styleLabel: string, contextLabel: string, rulesHeading: string, originalLabel: string, closing: string,
    formal: string, casual: string, academic: string, business: string)

  const KoreanRefine := RefineText(
    "텍스트를 정제하고 개선해주세요:\n\n",
    "텍스트를 정제하고 개선해주세요. 다음 지침을 따라주세요:\n\n",
    "1. 문법과 맞춤법 교정\n2. 가독성 개선\n3. 의미 유지",
    "1. 문법과 맞춤법을 교정하세요\n2. 문장 구조를 개선하여 가독성을 높이세요\n3. 불필요한 반복을 제거하세요\n4. 내용의 논리적 흐름을 개선하세요\n5. 원본의 의미와 톤을 유지하세요",
    "\n스타일: ", "\n컨텍스트: ", "\n\n추가 규칙:\n", "\n\n원본 텍스트:\n", "\n\n정제된 텍스트:",
    "정중하고 격식있는 문체", "친근하고 자연스러운 문체", "학술적이고 객관적인 문체", "비즈니스에 적합한 전문적인 문체")

  const EnglishRefine := RefineText(
    "Please refine and improve the text:\n\n",
    "Please refine and improve the text following these guidelines:\n\n",
    "1. Fix grammar and spelling\n2. Improve readability\n3. Maintain meaning",
    "1. Correct grammar and spelling errors\n2. Improve sentence structure for better readability\n3. Remove unnecessary repetition\n4. Enhance logical flow of content\n5. Maintain original meaning and tone",
    "\nStyle: ", "\nContext: ", "\n\nAdditional rules:\n", "\n\nOriginal text:\n", "\n\nRefined text:",
    "formal and respectful tone", "friendly and natural tone", "academic and objective tone", "professional business tone")

  /** The style guide for one of the four styles. */
  function StyleGuide(t: RefineText, style: string): string
    requires style in Styles
  {
    if style == "formal" then t.formal
    else if style == "casual" then t.casual
    else if style == "academic" then t.academic
    else t.business
  }

  /** Each style has its own guide, so the guide in a prompt names the
      requested style. */
  lemma StyleGuidesDistinct(t: RefineText, s1: string, s2: string)
    requires t == KoreanRefine || t == EnglishRefine
    requires s1 in Styles && s2 in Styles && s1 != s2
    ensures StyleGuide(t, s1) != StyleGuide(t, s2)
  {
  }

  /** What the pieces must satisfy for the assembled prompt to be its own
      trim and for the cost-optimised variant to be the shorter one. */
  predicate WellFormedRefine(t: RefineText) {
    && t.basicIntro != [] && !IsWhitespace(t.basicIntro[0])
    && t.detailedIntro != [] && !IsWhitespace(t.detailedIntro[0])
    && t.closing != [] && !IsWhitespace(t.closing[|t.closing| - 1])
    && |t.basicIntro| < |t.detailedIntro|
    && |t.basicRules| < |t.detailedRules|
  }

  lemma RefineTextsWellFormed()
    ensures WellFormedRefine(KoreanRefine) && WellFormedRefine(EnglishRefine)
  {
  }

  /** The custom-rule block: the heading and the rules numbered from 1,
      when there is at least one rule. */
  function RulesBlock(heading: string, rules: seq<string>): string {
    if |rules| > 0 then heading + NumberedFrom(rules, 1) else ""
  }

  /** A refine prompt before `trim()`, given its context line, rule block
      and (possibly truncated) text. */
  function RefineBody(t: RefineText, costOptimized: bool, guide: string, contextLine: string,
    rulesBlock: string, text: string): string
  {
    (if costOptimized then t.basicIntro else t.detailedIntro)
      + (if costOptimized then t.basicRules else t.detailedRules)
      + t.styleLabel + guide + contextLine + rulesBlock
      + t.originalLabel + text + t.closing
  }

  /** The text the prompt carries: truncated when `maxLength` is given and
      not 0. */
  function ProcessedText(text: string, maxLength: Option<int>): string {
    if maxLength.Some? && maxLength.value != 0 then Truncate(text, maxLength.value) else text
  }

  function RefineTextFor(language: string): RefineText {
    if language == "ko" then KoreanRefine else EnglishRefine
  }

  /** The prompt a valid request gets, before `trim()`. */
  function RefineBodyWith(t: RefineText, o: RefineOptions): string
    requires o.style in Styles
  {
    RefineBody(t, o.costOptimized, StyleGuide(t, o.style), ContextLine(t.contextLabel, o.context),
      RulesBlock(t.rulesHeading, o.customRules), ProcessedText(o.text, o.maxLength))
  }

  /** `createRefinePrompt`, with a thrown validation error as `Err`. */
  function CreateRefinePrompt(o: RefineOptions): (r: Result<string>)
    ensures r.Err? <==> ValidateRefineOptions(o).Some?
    ensures r.Err? ==> r.error == ValidateRefineOptions(o).value
  {
    match ValidateRefineOptions(o)
    case Some(e) => Err(e)
    case None => Ok(Trim(RefineBodyWith(RefineTextFor(o.language), o)))
  }

  /** The opening of a refine prompt for the chosen length. */
  function RefineIntro(t: RefineText, costOptimized: bool): string {
    if costOptimized then t.basicIntro else t.detailedIntro
  }

  /** The numbered standing instructions for the chosen length. */
  function RefineSteps(t: RefineText, costOptimized: bool): string {
    if costOptimized then t.basicRules else t.detailedRules
  }

  /** Where the context line starts: right after the style guide. */
  function ContextAt(t: RefineText, costOptimized: bool, guide: string): nat {
    |RefineIntro(t, costOptimized)| + |RefineSteps(t, costOptimized)| + |t.styleLabel| + |guide|
  }

  /** The prompt opens with the intro for the chosen length, followed by
      its numbered steps, the style label and the given style guide; then
      come the context line and the rule block, and it ends with the
      labelled text and the closing; nothing else is in it. */
  lemma {:induction false} RefineBodyLayout(t: RefineText, costOptimized: bool, guide: string,
    contextLine: string, rulesBlock: string, text: string)
    ensures var body := RefineBody(t, costOptimized, guide, contextLine, rulesBlock, text);
      var at := ContextAt(t, costOptimized, guide);
      var tail := t.originalLabel + text + t.closing;
      && StartsWith(body, RefineIntro(t, costOptimized))
      && OccursAt(body, RefineSteps(t, costOptimized) + t.styleLabel + guide, |RefineIntro(t, costOptimized)|)
      && OccursAt(body, contextLine, at)
      && OccursAt(body, rulesBlock, at + |contextLine|)
      && EndsWith(body, tail)
      && |body| == at + |contextLine| + |rulesBlock| + |tail|
  {
    var intro := RefineIntro(t, costOptimized);
    var steps := RefineSteps(t, costOptimized);
    var middle := steps + t.styleLabel + guide;
    var tail := t.originalLabel + text + t.closing;
    var x := intro + middle + contextLine + rulesBlock;
    assert RefineBody(t, costOptimized, guide, contextLine, rulesBlock, text) == x + tail by {
      ConcatAssoc(intro, steps + t.styleLabel, guide);
      ConcatAssoc(intro, steps, t.styleLabel);
      ConcatAssoc(x, t.originalLabel + text, t.closing);
      ConcatAssoc(x, t.originalLabel, text);
    }
    Layout5(intro, middle, contextLine, rulesBlock, tail);
  }

  /** With well-formed pieces the prompt survives `trim()` unchanged. */
  lemma RefineBodyTrimmed(t: RefineText, costOptimized: bool, guide: string,
    contextLine: string, rulesBlock: string, text: string)
    requires WellFormedRefine(t)
    ensures var body := RefineBody(t, costOptimized, guide, contextLine, rulesBlock, text);
      Trim(body) == body
  {
    RefineBodyLayout(t, costOptimized, guide, contextLine, rulesBlock, text);
    var body := RefineBody(t, costOptimized, guide, contextLine, rulesBlock, text);
    var intro := RefineIntro(t, costOptimized);
    var tail := t.originalLabel + text + t.closing;
    assert body[0] == body[..|intro|][0] == intro[0];
    assert body[|body| - 1] == body[|body| - |tail|..][|tail| - 1] == t.closing[|t.closing| - 1];
    TrimOfTrimmed(body);
  }

  /** For the same pieces, the cost-optimised prompt is strictly shorter. */
  lemma CostOptimizedRefineShorter(t: RefineText, guide: string, contextLine: string,
    rulesBlock: string, text: string)
    requires WellFormedRefine(t)
    ensures |RefineBody(t, true, guide, contextLine, rulesBlock, text)|
      < |RefineBody(t, false, guide, contextLine, rulesBlock, text)|
  {
  }

  /** The trimmed prompt keeps the layout of the untrimmed one. */
  lemma TrimmedRefineLayout(t: RefineText, costOptimized: bool, guide: string,
    contextLine: string, rulesBlock: string, text: string)
    requires WellFormedRefine(t)
    ensures var p := Trim(RefineBody(t, costOptimized, guide, contextLine, rulesBlock, text));
      && StartsWith(p, RefineIntro(t, costOptimized))
      && OccursAt(p, RefineSteps(t, costOptimized) + t.styleLabel + guide, |RefineIntro(t, costOptimized)|)
      && EndsWith(p, t.originalLabel + text + t.closing)
      && OccursAt(p, contextLine + rulesBlock, ContextAt(t, costOptimized, guide))
      && (costOptimized ==> |p| < |Trim(RefineBody(t, false, guide, contextLine, rulesBlock, text))|)
  {
    var body := RefineBody(t, costOptimized, guide, contextLine, rulesBlock, text);
    RefineBodyTrimmed(t, costOptimized, guide, contextLine, rulesBlock, text);
    RefineBodyLayout(t, costOptimized, guide, contextLine, rulesBlock, text);
    Adjacent(body, contextLine, rulesBlock, ContextAt(t, costOptimized, guide));
    if costOptimized {
      TrimmedRefineShorter(t, guide, contextLine, rulesBlock, text);
    }
  }

  /** Trimming keeps the cost-optimised prompt strictly shorter. */
  lemma TrimmedRefineShorter(t: RefineText, guide: string, contextLine: string,
    rulesBlock: string, text: string)
    requires WellFormedRefine(t)
    ensures |Trim(RefineBody(t, true, guide, contextLine, rulesBlock, text))|
      < |Trim(RefineBody(t, false, guide, contextLine, rulesBlock, text))|
  {
    RefineBodyTrimmed(t, true, guide, contextLine, rulesBlock, text);
    RefineBodyTrimmed(t, false, guide, contextLine, rulesBlock, text);
    CostOptimizedRefineShorter(t, guide, contextLine, rulesBlock, text);
  }

  /** A valid request gives a prompt that opens with the intro for its
      length, followed by the steps for that length, the style label and
      the guide of the requested style, and ends with the (possibly truncated) text under its label
      and the closing line; that holds the context line exactly when a
      non-empty context is given, followed by the custom-rule block, right
      after the style guide; and that is strictly shorter when
      cost-optimised than the same request's full prompt. */
  lemma RefinePromptLayout(o: RefineOptions)
    requires ValidateRefineOptions(o).None?
    ensures var r := CreateRefinePrompt(o);
      var t := RefineTextFor(o.language);
      var full := CreateRefinePrompt(o.(costOptimized := false));
      var ctx := ContextLine(t.contextLabel, o.context);
      && r.Ok? && full.Ok?
      && StartsWith(r.value, RefineIntro(t, o.costOptimized))
      && OccursAt(r.value, RefineSteps(t, o.costOptimized) + t.styleLabel + StyleGuide(t, o.style), |RefineIntro(t, o.costOptimized)|)
      && EndsWith(r.value, t.originalLabel + ProcessedText(o.text, o.maxLength) + t.closing)
      && (HasContext(o.context) <==> ctx != "")
      && (HasContext(o.context) ==> ctx == t.contextLabel + o.context.value)
      && OccursAt(r.value, ctx + RulesBlock(t.rulesHeading, o.customRules), ContextAt(t, o.costOptimized, StyleGuide(t, o.style)))
      && (o.costOptimized ==> |r.value| < |full.value|)
  {
    var t := RefineTextFor(o.language);
    assert WellFormedRefine(t) by { RefineTextsWellFormed(); }
    var full := o.(costOptimized := false);
    var guide := StyleGuide(t, o.style);
    var ctx := ContextLine(t.contextLabel, o.context);
    var rules := RulesBlock(t.rulesHeading, o.customRules);
    assert CreateRefinePrompt(o) == Ok(Trim(RefineBody(t, o.costOptimized, guide, ctx, rules, ProcessedText(o.text, o.maxLength))));
    assert CreateRefinePrompt(full) == Ok(Trim(RefineBody(t, false, guide, ctx, rules, ProcessedText(o.text, o.maxLength)))) by {
      assert ValidateRefineOptions(full) == ValidateRefineOptions(o);
      assert RefineTextFor(full.language) == t && full.text == o.text && full.maxLength == o.maxLength;
    }
    TrimmedRefineLayout(t, o.costOptimized, guide, ctx, rules, ProcessedText(o.text, o.maxLength));
  }

  /** Two adjacent occurrences form one occurrence of their concatenation. */
  lemma Adjacent(s: string, x: string, y: string, at: nat)
    requires OccursAt(s, x, at) && OccursAt(s, y, at + |x|)
    ensures OccursAt(s, x + y, at)
  {
    assert s[at..at + |x| + |y|] == s[at..at + |x|] + s[at + |x|..at + |x| + |y|];
  }

  /** Custom rule `i` is line `i + 1` of the rule block. */
  lemma CustomRuleInBlock(heading: string, rules: seq<string>, i: nat)
    requires i < |rules|
    ensures OccursAt(RulesBlock(heading, rules), NatToString(i + 1) + ". " + rules[i] + "\n",
      |heading| + |NumberedFrom(rules[..i], 1)|)
  {
    NumberedLine(rules, i);
    var at := |NumberedFrom(rules[..i], 1)|;
    InnerOccurrence(RulesBlock(heading, rules), heading, NumberedFrom(rules, 1),
      NatToString(i + 1) + ". " + rules[i] + "\n", at);
  }

  // Feedback prompts

  /** The fixed pieces of a feedback prompt in one language. */
  datatype FeedbackText = FeedbackText(
    basicIntro: string, detailedIntro: string, areasHeading: string, criteriaHeading: string,
    contextLabel: string, textLabel: string, closing: string)

  const KoreanFeedback := FeedbackText(
    "다음 텍스트에 대한 피드백을 제공해주세요:\n\n",
    "다음 텍스트에 대한 건설적인 피드백을 제공해주세요:\n\n",
    "평가 항목:\n", "\n세부 평가 기준:\n", "\n컨텍스트: ", "\n\n분석할 텍스트:\n", "\n\n피드백:")

  const EnglishFeedback := FeedbackText(
    "Please " + "provide feedback on the following text:\n\n",
    "Please " + "provide constructive feedback on the following text:\n\n",
    "Evaluation areas:\n", "\nDetailed criteria:\n", "\nContext: ", "\n\nText to analyze:\n", "\n\nFeedback:")

  /** `FOCUS_AREAS_MAP[area].ko` / `.en`. */
  function AreaName(area: FocusArea, korean: bool): string {
    match area
    case Clarity => if korean then "명확성" else "clarity"
    case Structure => if korean then "구조" else "structure"
    case Grammar => if korean then "문법" else "grammar"
    case Tone => if korean then "톤" else "tone"
    case Style => if korean then "스타일" else "style"
    case Logic => if korean then "논리성" else "logic"
  }

  function AreaNames(areas: seq<FocusArea>, korean: bool): (names: seq<string>)
    ensures |names| == |areas|
    ensures forall i | 0 <= i < |areas| :: names[i] == AreaName(areas[i], korean)
  {
    seq(|areas|, i requires 0 <= i < |areas| => AreaName(areas[i], korean))
  }

  predicate WellFormedFeedback(t: FeedbackText) {
    && t.basicIntro != [] && !IsWhitespace(t.basicIntro[0])
    && t.detailedIntro != [] && !IsWhitespace(t.detailedIntro[0])
    && t.closing != [] && !IsWhitespace(t.closing[|t.closing| - 1])
  }

  lemma FeedbackTextsWellFormed()
    ensures WellFormedFeedback(KoreanFeedback) && WellFormedFeedback(EnglishFeedback)
  {
  }

  /** The focus-area block: the heading and the localised names numbered
      from 1. */
  function AreasBlock(heading: string, names: seq<string>): string {
    heading + NumberedFrom(names, 1)
  }

  /** The criteria block: the heading and one line per entry, when a
      criteria record is given (even an empty one). */
  function CriteriaBlock(heading: string, criteria: Option<seq<(string, string)>>): string {
    if criteria.Some? then heading + CriteriaLines(criteria.value) else ""
  }

  /** A feedback prompt before `trim()`, given its blocks; the focus-area
      block is left out when cost-optimised. */
  function FeedbackBody(t: FeedbackText, costOptimized: bool, areasBlock: string, criteriaBlock: string,
    contextLine: string, text: string): string
  {
    (if costOptimized then t.basicIntro else t.detailedIntro)
      + (if costOptimized then "" else areasBlock)
      + criteriaBlock + contextLine
      + t.textLabel + text + t.closing
  }

  function FeedbackTextFor(language: string): FeedbackText {
    if language == "ko" then KoreanFeedback else EnglishFeedback
  }

  /** The prompt a valid request gets, before `trim()`. */
  function FeedbackBodyFor(o: FeedbackOptions): string {
    var t := FeedbackTextFor(o.language);
    FeedbackBody(t, o.costOptimized, AreasBlock(t.areasHeading, AreaNames(o.focusAreas, o.language == "ko")),
      CriteriaBlock(t.criteriaHeading, o.criteria), ContextLine(t.contextLabel, o.context), o.text)
  }

  /** `createFeedbackPrompt`, with a thrown validation error as `Err`. */
  function CreateFeedbackPrompt(o: FeedbackOptions): (r: Result<string>)
    ensures r.Err? <==> ValidateFeedbackOptions(o).Some?
    ensures r.Err? ==> r.error == ValidateFeedbackOptions(o).value
  {
    match ValidateFeedbackOptions(o)
    case Some(e) => Err(e)
    case None => Ok(Trim(FeedbackBodyFor(o)))
  }

  /** The prompt opens with the intro for the chosen length; right after it
      come the focus-area block unless cost-optimised, then the criteria
      block, the context line, and the labelled text with the closing. */
  lemma {:induction false} FeedbackBodyLayout(t: FeedbackText, costOptimized: bool, areasBlock: string,
    criteriaBlock: string, contextLine: string, text: string)
    ensures var body := FeedbackBody(t, costOptimized, areasBlock, criteriaBlock, contextLine, text);
      var intro := if costOptimized then t.basicIntro else t.detailedIntro;
      var rest := criteriaBlock + contextLine + t.textLabel + text + t.closing;
      && StartsWith(body, intro)
      && EndsWith(body, t.textLabel + text + t.closing)
      && (costOptimized ==> body == intro + rest)
      && (!costOptimized ==> body == intro + areasBlock + rest)
  {
    var intro := if costOptimized then t.basicIntro else t.detailedIntro;
    var areas := if costOptimized then "" else areasBlock;
    var rest := criteriaBlock + contextLine + t.textLabel + text + t.closing;
    var body := FeedbackBody(t, costOptimized, areasBlock, criteriaBlock, contextLine, text);
    var y := intro + areas;
    assert body == y + rest by {
      ConcatAssoc(y, criteriaBlock + contextLine + t.textLabel + text, t.closing);
      ConcatAssoc(y, criteriaBlock + contextLine + t.textLabel, text);
      ConcatAssoc(y, criteriaBlock + contextLine, t.textLabel);
      ConcatAssoc(y, criteriaBlock, contextLine);
    }
    var tail := t.textLabel + text + t.closing;
    var mid := areas + criteriaBlock + contextLine;
    assert StartsWith(body, intro) && EndsWith(body, tail) by {
      var z := intro + mid;
      ConcatAssoc(intro, areas + criteriaBlock, contextLine);
      ConcatAssoc(intro, areas, criteriaBlock);
      ConcatAssoc(z, t.textLabel + text, t.closing);
      ConcatAssoc(z, t.textLabel, text);
      Slices3(intro, mid, tail);
    }
    if costOptimized {
      assert y == intro;
    }
  }

  /** With well-formed pieces the prompt survives `trim()` unchanged. */
  lemma FeedbackBodyTrimmed(t: FeedbackText, costOptimized: bool, areasBlock: string,
    criteriaBlock: string, contextLine: string, text: string)
    requires WellFormedFeedback(t)
    ensures var body := FeedbackBody(t, costOptimized, areasBlock, criteriaBlock, contextLine, text);
      Trim(body) == body
  {
    FeedbackBodyLayout(t, costOptimized, areasBlock, criteriaBlock, contextLine, text);
    var body := FeedbackBody(t, costOptimized, areasBlock, criteriaBlock, contextLine, text);
    var intro := if costOptimized then t.basicIntro else t.detailedIntro;
    var tail := t.textLabel + text + t.closing;
    assert body[0] == body[..|intro|][0] == intro[0];
    assert body[|body| - 1] == body[|body| - |tail|..][|tail| - 1] == t.closing[|t.closing| - 1];
    TrimOfTrimmed(body);
  }

  /** A valid request gives a prompt that ends with the text under its
      label and the closing line, and that has the focus-area block right
      after the intro exactly when it is not cost-optimised. */
  lemma FeedbackPromptLayout(o: FeedbackOptions)
    requires ValidateFeedbackOptions(o).None?
    ensures var r := CreateFeedbackPrompt(o);
      var t := if o.language == "ko" then KoreanFeedback else EnglishFeedback;
      var areas := AreasBlock(t.areasHeading, AreaNames(o.focusAreas, o.language == "ko"));
      var rest := CriteriaBlock(t.criteriaHeading, o.criteria) + ContextLine(t.contextLabel, o.context)
        + t.textLabel + o.text + t.closing;
      && r.Ok?
      && EndsWith(r.value, t.textLabel + o.text + t.closing)
      && (o.costOptimized ==> r.value == t.basicIntro + rest)
      && (!o.costOptimized ==> r.value == t.detailedIntro + areas + rest)
  {
    var t := FeedbackTextFor(o.language);
    FeedbackTextsWellFormed();
    var areas := AreasBlock(t.areasHeading, AreaNames(o.focusAreas, o.language == "ko"));
    var crit := CriteriaBlock(t.criteriaHeading, o.criteria);
    var ctx := ContextLine(t.contextLabel, o.context);
    FeedbackBodyTrimmed(t, o.costOptimized, areas, crit, ctx, o.text);
    FeedbackBodyLayout(t, o.costOptimized, areas, crit, ctx, o.text);
  }

  /** Focus area `i` is listed by its localised name as line `i + 1` of the
      focus-area block. */
  lemma FocusAreaInBlock(heading: string, areas: seq<FocusArea>, korean: bool, i: nat)
    requires i < |areas|
    ensures OccursAt(AreasBlock(heading, AreaNames(areas, korean)),
      NatToString(i + 1) + ". " + AreaName(areas[i], korean) + "\n",
      |heading| + |NumberedFrom(AreaNames(areas, korean)[..i], 1)|)
  {
    var names := AreaNames(areas, korean);
    NumberedLine(names, i);
    InnerOccurrence(AreasBlock(heading, names), heading, NumberedFrom(names, 1),
      NatToString(i + 1) + ". " + names[i] + "\n", |NumberedFrom(names[..i], 1)|);
  }

  /** Criteria entry `i` is a `- key: value` line of the criteria block. */
  lemma CriterionInBlock(heading: string, entries: seq<(string, string)>, i: nat)
    requires i < |entries|
    ensures OccursAt(CriteriaBlock(heading, Some(entries)),
      "- " + entries[i].0 + ": " + entries[i].1 + "\n", |heading| + |CriteriaLines(entries[..i])|)
  {
    CriteriaLine(entries, i);
    InnerOccurrence(CriteriaBlock(heading, Some(entries)), heading, CriteriaLines(entries),
      "- " + entries[i].0 + ": " + entries[i].1 + "\n", |CriteriaLines(entries[..i])|);
  }

  /** An occurrence inside a part of a string is an occurrence in the string. */
  lemma InnerOccurrence(s: string, before: string, part: string, pat: string, at: nat)
    requires StartsWith(s, before + part)
    requires OccursAt(part, pat, at)
    ensures OccursAt(s, pat, |before| + at)
  {
    var w := before + part;
    var start := |before| + at;
    forall k | 0 <= k < |pat| ensures s[start + k] == pat[k] {
      assert s[start + k] == s[..|w|][start + k] == w[start + k];
      assert w[start + k] == part[at + k] == part[at..at + |pat|][k];
    }
    assert s[start..start + |pat|] == pat;
  }
}
