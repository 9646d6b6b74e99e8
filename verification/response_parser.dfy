/** `ResponseParser`: checks a generated text against built-in length rules
    and caller-supplied validators, scores it with fixed integer quality
    metrics and collects usage metadata. The wall-clock processing time is
    a parameter. */
module ResponseParser {
  import opened Values
  import opened JsString

  const EmptyResponse := "Response is empty"
  const TooShort := "Response is too short"
  /** `DEFAULT_MIN_LENGTH`. */
  const MinLength := 3
  const ModelName := "gemini-1.5-flash"

  /** A caller-supplied check and the message reported when it fails; the
      rule's name, description and severity play no part in validation. */
  datatype ValidationRule = ValidationRule(validator: string -> bool, errorMessage: string)

  datatype Validation = Validation(isValid: bool, errors: seq<string>)

  datatype QualityMetrics = QualityMetrics(
    score: int, readability: int, coherence: int, completeness: int, accuracy: int)

  datatype Usage = Usage(totalTokenCount: Option<int>, promptTokenCount: Option<int>,
    candidatesTokenCount: Option<int>)

  datatype RawResponse = RawResponse(text: Option<string>, usageMetadata: Option<Usage>)

  datatype Metadata = Metadata(processingTime: int, tokensUsed: int, modelUsed: string,
    promptTokens: Option<int>, completionTokens: Option<int>)

  datatype ParseOptions = ParseOptions(validateStructure: Option<bool>,
    customValidators: Option<seq<ValidationRule>>)

  datatype ProcessedResponse = ProcessedResponse(content: string, quality: QualityMetrics,
    metadata: Metadata, isValid: bool, errors: Option<seq<string>>)

  /** The built-in rules: an empty message for blank text, a too-short
      message for text whose trimmed length is under the minimum; never
      both. */
  function BasicErrors(text: string): (r: seq<string>)
    ensures |r| <= 1
    ensures r == [] <==> |Trim(text)| >= MinLength
    ensures r == [EmptyResponse] <==> IsBlank(text)
    ensures r == [TooShort] <==> !IsBlank(text) && |Trim(text)| < MinLength
  {
    BlankIffTrimEmpty(text);
    if |Trim(text)| == 0 then [EmptyResponse]
    else if |Trim(text)| < MinLength then [TooShort]
    else []
  }

  /** The messages of the failing custom validators, in rule order. */
  function CustomErrors(text: string, rules: seq<ValidationRule>): (r: seq<string>)
    ensures |r| <= |rules|
    decreases |rules|
  {
    if rules == [] then []
    else (if rules[0].validator(text) then [] else [rules[0].errorMessage]) + CustomErrors(text, rules[1..])
  }

  /** One rule contributes its message exactly when it fails. */
  lemma CustomErrorsSingle(text: string, rule: ValidationRule)
    ensures CustomErrors(text, [rule]) == if rule.validator(text) then [] else [rule.errorMessage]
  {
    assert [rule][1..] == [];
  }

  /** The rules are applied independently and their messages kept in order:
      the messages of two runs of rules are those of each run, concatenated. */
  lemma {:induction false} CustomErrorsSplit(text: string, a: seq<ValidationRule>, b: seq<ValidationRule>)
    ensures CustomErrors(text, a + b) == CustomErrors(text, a) + CustomErrors(text, b)
    decreases |a|
  {
    if a == [] {
      assert a + b == b;
    } else {
      assert (a + b)[0] == a[0] && (a + b)[1..] == a[1..] + b;
      CustomErrorsSplit(text, a[1..], b);
      ConcatAssoc(if a[0].validator(text) then [] else [a[0].errorMessage],
        CustomErrors(text, a[1..]), CustomErrors(text, b));
    }
  }

  /** No message is reported exactly when every rule accepts the text. */
  lemma {:induction false} CustomErrorsEmpty(text: string, rules: seq<ValidationRule>)
    ensures CustomErrors(text, rules) == [] <==> forall i | 0 <= i < |rules| :: rules[i].validator(text)
    decreases |rules|
  {
    if rules != [] {
      CustomErrorsEmpty(text, rules[1..]);
      assert forall i | 1 <= i < |rules| :: rules[i] == rules[1..][i - 1];
    }
  }

  /** `validateText`: the built-in messages, then the failing validators'
      messages; valid exactly when there are none. */
  function ValidateText(text: string, customValidators: Option<seq<ValidationRule>>): (v: Validation)
    ensures v.isValid <==> v.errors == []
    ensures |BasicErrors(text)| <= |v.errors| && v.errors[..|BasicErrors(text)|] == BasicErrors(text)
    ensures customValidators.None? ==> v.errors == BasicErrors(text)
    ensures customValidators.Some? ==>
      v.errors[|BasicErrors(text)|..] == CustomErrors(text, customValidators.value)
  {
    var errors := BasicErrors(text) + CustomErrors(text, customValidators.GetOr([]));
    Validation(errors == [], errors)
  }

  /** A text is valid exactly when its trimmed length reaches the minimum
      and every custom validator accepts it. */
  lemma ValidIff(text: string, rules: seq<ValidationRule>)
    ensures ValidateText(text, Some(rules)).isValid
      <==> |Trim(text)| >= MinLength && forall i | 0 <= i < |rules| :: rules[i].validator(text)
  {
    CustomErrorsEmpty(text, rules);
  }

  /** `getBasicQuality`: all zero for blank text; otherwise 80 for text
      longer than 10 characters and 30 for shorter, with completeness 50
      unless the text is longer than 20. */
  function BasicQuality(text: string): (q: QualityMetrics)
    ensures IsBlank(text) ==> q == QualityMetrics(0, 0, 0, 0, 0)
    ensures !IsBlank(text) ==> q.score in {30, 80} && (q.score == 80 <==> |text| > 10)
    ensures q.readability == q.coherence == q.accuracy == q.score
    ensures !IsBlank(text) ==> q.completeness == if |text| > 20 then q.score else 50
  {
    if IsBlank(text) then QualityMetrics(0, 0, 0, 0, 0)
    else
      var base := if |text| > 10 then 80 else 30;
      QualityMetrics(base, base, base, if |text| > 20 then base else 50, base)
  }

  /** `calculateQuality`, the public entry to the basic metrics: all zero
      for blank text; otherwise a score of 80 for text longer than 10
      characters and 30 for shorter text, shared by readability, coherence
      and accuracy, and a completeness of 50 unless the text is longer than
      20. */
  function CalculateQuality(text: string): (q: QualityMetrics)
    ensures IsBlank(text) ==> q == QualityMetrics(0, 0, 0, 0, 0)
    ensures !IsBlank(text) ==> q.score > 0
    ensures !IsBlank(text) ==> (q.score == 80 <==> |text| > 10) && (q.score == 30 <==> |text| <= 10)
    ensures q.readability == q.coherence == q.accuracy == q.score
    ensures !IsBlank(text) ==> q.completeness == if |text| > 20 then q.score else 50
    ensures q == BasicQuality(text)
  {
    BasicQuality(text)
  }

  /** Every metric lies in 0..100, and a text scores 0 exactly when it is
      blank. */
  lemma QualityBounds(text: string)
    ensures var q := CalculateQuality(text);
      && 0 <= q.score <= 100 && 0 <= q.completeness <= 100
      && (q.score == 0 <==> IsBlank(text))
      && (q.completeness == 0 <==> IsBlank(text))
  {
  }

  /** Among non-blank texts, a longer text never scores lower. */
  lemma ScoreMonotone(a: string, b: string)
    requires !IsBlank(a) && !IsBlank(b) && |a| <= |b|
    ensures CalculateQuality(a).score <= CalculateQuality(b).score
  {
  }

  /** `extractMetadata`: the total token count, or 0 when absent or 0; the
      prompt and completion counts and the processing time as given. */
  function ExtractMetadata(raw: RawResponse, processingTime: int): (m: Metadata)
    ensures m.processingTime == processingTime && m.modelUsed == ModelName
    ensures raw.usageMetadata.None? ==> m.tokensUsed == 0 && m.promptTokens.None? && m.completionTokens.None?
    ensures raw.usageMetadata.Some? ==>
      && m.tokensUsed == raw.usageMetadata.value.totalTokenCount.GetOr(0)
      && m.promptTokens == raw.usageMetadata.value.promptTokenCount
      && m.completionTokens == raw.usageMetadata.value.candidatesTokenCount
  {
    var usage := raw.usageMetadata.GetOr(Usage(None, None, None));
    Metadata(processingTime, usage.totalTokenCount.GetOr(0), ModelName,
      usage.promptTokenCount, usage.candidatesTokenCount)
  }

  /** `parseResponse`: the text (or ""), its quality and metadata, and the
      validation outcome, which is skipped only when `validateStructure` is
      exactly `false`; an empty error list is reported as absent. */
  function ParseResponse(raw: RawResponse, options: ParseOptions, processingTime: int): (r: ProcessedResponse)
    ensures r.content == raw.text.GetOr("")
    ensures r.quality == BasicQuality(r.content)
    ensures r.metadata == ExtractMetadata(raw, processingTime)
    ensures options.validateStructure == Some(false) ==> r.isValid && r.errors.None?
    ensures r.isValid <==> r.errors.None?
    ensures r.errors.Some? ==> r.errors.value != []
  {
    var content := raw.text.GetOr("");
    var errors := if options.validateStructure == Some(false) then []
      else ValidateText(content, options.customValidators).errors;
    ProcessedResponse(content, BasicQuality(content), ExtractMetadata(raw, processingTime),
      errors == [], if |errors| > 0 then Some(errors) else None)
  }

  /** With validation on, the reported errors are exactly those of
      `validateText` on the content. */
  lemma ParseAgreesWithValidate(raw: RawResponse, options: ParseOptions, processingTime: int)
    requires options.validateStructure != Some(false)
    ensures var r := ParseResponse(raw, options, processingTime);
      var v := ValidateText(raw.text.GetOr(""), options.customValidators);
      && r.isValid == v.isValid
      && r.errors.GetOr([]) == v.errors
  {
  }

  /** A blank or missing text is reported as empty and is never valid
      while validation is on. */
  lemma BlankResponseInvalid(raw: RawResponse, options: ParseOptions, processingTime: int)
    requires options.validateStructure != Some(false)
    requires IsBlank(raw.text.GetOr(""))
    ensures var r := ParseResponse(raw, options, processingTime);
      && !r.isValid && r.errors.Some? && r.errors.value[0] == EmptyResponse
      && r.quality == QualityMetrics(0, 0, 0, 0, 0)
  {
    var content := raw.text.GetOr("");
    var v := ValidateText(content, options.customValidators);
    assert BasicErrors(content) == [EmptyResponse];
    assert v.errors[..1] == [EmptyResponse];
  }
}
