/** The older feedback generator, the one the background orchestrator uses.
    It reads both columns through the report reader, which takes the first
    row of each range as a header, asks in Korean or English with an
    optional context line, and labels row `i` of the data as sheet row
    `i + 2`. */
module LegacyFeedbackGenerator {
  import opened Values
  import opened JsString
  import opened SheetsApi
  import opened GeminiApi
  import opened BatchResults
  import opened FeedbackBatch
  import opened SheetsIntegration

  /** The fixed pieces of one language's prompt: the opening request, the
      labels put before the question, the answer and the context, and the
      closing requirement block. */
  datatype PromptText = PromptText(
    intro: string, questionLabel: string, answerLabel: string, contextLabel: string, criteria: string)

  const Korean := PromptText(
    "다음 질문과 답변에 대해 건설적인 피드백을 제공해주세요.\n\n",
    "질문: ",
    "답변: ",
    "컨텍스트: ",
    "피드백 요구사항:\n"
      + "1. 잘한 점과 아쉬운 점을 균형있게 포함\n"
      + "2. 기술적 측면과 협업 측면에서의 세부 피드백\n"
      + "3. 구체적이고 실행 가능한 개선 방안 제시\n"
      + "4. 응답은 한글 기준 500자 내외로 작성\n"
      + "5. 마크다운 형식을 사용하지 말고 일반 텍스트로만 작성\n"
      + "\n"
      + "피드백 형식:\n"
      + "잘한 점:\n"
      + "- 기술적 측면\n"
      + "- 협업 측면\n"
      + "\n"
      + "아쉬운 점:\n"
      + "- 기술적 측면\n"
      + "- 협업 측면\n"
      + "\n"
      + "개선 방안:\n"
      + "- 구체적인 실행 방안")

  const English := PromptText(
    "Please provide constructive feedback for the following question and answer.\n\n",
    "Question: ",
    "Answer: ",
    "Context: ",
    "Feedback criteria:\n"
      + "- Accuracy and completeness of content\n"
      + "- Clarity and specificity of the answer\n"
      + "- Logical structure and flow\n"
      + "- Suggestions for improvement\n"
      + "- Use plain text format without markdown formatting\n"
      + "\n"
      + "Feedback:")

  /** Korean for `"ko"`, English for every other language. */
  function TextFor(language: string): PromptText {
    if language == "ko" then Korean else English
  }

  /** `if (context)`: a context is used when it is given and non-empty. */
  predicate HasContext(context: Option<string>) {
    context.Some? && context.value != ""
  }

  /** The prompt in one language. */
  function Assemble(t: PromptText, question: string, answer: string, context: Option<string>): string {
    t.intro + t.questionLabel + question + "\n" + t.answerLabel + answer + "\n\n"
      + (if HasContext(context) then t.contextLabel + context.value + "\n\n" else "")
      + t.criteria
  }

  /** `buildBasicFeedbackPrompt`: the prompt in Korean for `"ko"` and in
      English otherwise. */
  function BuildBasicFeedbackPrompt(question: string, answer: string, language: string, context: Option<string>)
    : (p: string)
    ensures var t := TextFor(language);
      var aAt := |t.intro| + |t.questionLabel| + |question| + 1 + |t.answerLabel|;
      && StartsWith(p, t.intro)
      && OccursAt(p, question, |t.intro| + |t.questionLabel|)
      && OccursAt(p, answer, aAt)
      && EndsWith(p, t.criteria)
      && (HasContext(context) ==> OccursAt(p, t.contextLabel + context.value + "\n\n", aAt + |answer| + 2))
      && (!HasContext(context) ==> |p| == aAt + |answer| + 2 + |t.criteria|)
  {
    AssembleLayout(TextFor(language), question, answer, context);
    Assemble(TextFor(language), question, answer, context)
  }

  /** In either language the prompt opens with the request, carries the
      question and the answer after their labels, closes with the requirement
      block, and holds the labelled context line exactly when a non-empty
      context is given: otherwise nothing lies between the answer and the
      requirement block. */
  lemma {:induction false} AssembleLayout(t: PromptText, question: string, answer: string, context: Option<string>)
    ensures var p := Assemble(t, question, answer, context);
      var qAt := |t.intro| + |t.questionLabel|;
      var aAt := qAt + |question| + 1 + |t.answerLabel|;
      var tail := aAt + |answer| + 2;
      && StartsWith(p, t.intro)
      && OccursAt(p, question, qAt)
      && OccursAt(p, answer, aAt)
      && EndsWith(p, t.criteria)
      && (HasContext(context) ==> OccursAt(p, t.contextLabel + context.value + "\n\n", tail))
      && (!HasContext(context) ==> |p| == tail + |t.criteria|)
  {
    var p := Assemble(t, question, answer, context);
    var head := t.intro + t.questionLabel + question + "\n" + t.answerLabel + answer + "\n\n";
    var line := if HasContext(context) then t.contextLabel + context.value + "\n\n" else "";
    assert p == head + line + t.criteria;
    var qAt := |t.intro| + |t.questionLabel|;
    var aAt := qAt + |question| + 1 + |t.answerLabel|;
    assert p[..|t.intro|] == t.intro;
    assert p[qAt..qAt + |question|] == question;
    assert p[aAt..aAt + |answer|] == answer;
    assert p[|head| + |line|..] == t.criteria;
    if HasContext(context) {
      assert p[|head|..|head| + |line|] == line;
    }
  }

  /** The built prompt has that layout with the Korean text for `"ko"` and
      the English text for any other language. */
  lemma BasicPromptLayout(question: string, answer: string, language: string, context: Option<string>)
    ensures var t := if language == "ko" then Korean else English;
      var p := BuildBasicFeedbackPrompt(question, answer, language, context);
      var qAt := |t.intro| + |t.questionLabel|;
      var aAt := qAt + |question| + 1 + |t.answerLabel|;
      && StartsWith(p, t.intro)
      && OccursAt(p, question, qAt)
      && OccursAt(p, answer, aAt)
      && EndsWith(p, t.criteria)
      && (HasContext(context) ==> OccursAt(p, t.contextLabel + context.value + "\n\n", aAt + |answer| + 2))
      && (!HasContext(context) ==> |p| == aAt + |answer| + 2 + |t.criteria|)
  {
    if language == "ko" {
      AssembleLayout(Korean, question, answer, context);
    } else {
      AssembleLayout(English, question, answer, context);
    }
  }

  /** `generateBasicFeedback` given the service's reply to its request; the
      request carries the caller's context along with the prompt. */
  function GenerateBasicFeedback(
    question: string, answer: string, language: string, context: Option<string>, reply: AiReply)
    : (r: BasicFeedback)
    ensures r.request.None? <==> !HasQuestionAndAnswer(question, answer)
    ensures r.request.None? ==> r.result == FeedbackErr(MissingInput)
    ensures r.request.Some? ==>
      && r.request.value.kind == Feedback
      && r.request.value.text == BuildBasicFeedbackPrompt(question, answer, language, context)
      && r.request.value.context == context
      && r.result == FeedbackFromReply(reply)
      && (r.result.FeedbackOk? <==> reply.success)
  {
    if !HasQuestionAndAnswer(question, answer) then BasicFeedback(None, FeedbackErr(MissingInput))
    else
      BasicFeedback(Some(AiRequest(Feedback, BuildBasicFeedbackPrompt(question, answer, language, context), context)),
        FeedbackFromReply(reply))
  }

  /** The prompt a single call sends has the layout of its language: the
      request, the question and the answer after their labels, the context
      line exactly when a non-empty context is given, and the requirement
      block at the end. */
  lemma SentPromptLayout(question: string, answer: string, language: string, context: Option<string>, reply: AiReply)
    requires HasQuestionAndAnswer(question, answer)
    ensures var t := if language == "ko" then Korean else English;
      var p := GenerateBasicFeedback(question, answer, language, context, reply).request.value.text;
      var qAt := |t.intro| + |t.questionLabel|;
      var aAt := qAt + |question| + 1 + |t.answerLabel|;
      && StartsWith(p, t.intro)
      && OccursAt(p, question, qAt)
      && OccursAt(p, answer, aAt)
      && EndsWith(p, t.criteria)
      && (HasContext(context) ==> OccursAt(p, t.contextLabel + context.value + "\n\n", aAt + |answer| + 2))
      && (!HasContext(context) ==> |p| == aAt + |answer| + 2 + |t.criteria|)
  {
    BasicPromptLayout(question, answer, language, context);
  }

  /** `readExistingReport(...).data?.rows || []`: the range without its first
      row, or the reader's error. */
  function ReportRows(read: ReadReply): (r: Result<Grid>)
    ensures read.ReadFailed? ==> r == Err(ReadReportPrefix + read.error)
    ensures read.ReadOk? && |ReadValues(read)| == 0 ==> r == Ok([])
    ensures read.ReadOk? && |ReadValues(read)| > 0 ==> r == Ok(ReadValues(read)[1..])
  {
    match ReadExistingReport(read)
    case Err(e) => Err(e)
    case Ok(data) =>
      if read.ReadOk? && |ReadValues(read)| > 0 then
        assert ReadValues(read) == [data.headers] + data.rows;
        Ok(data.rows)
      else Ok(data.rows)
  }

  /** The batch's prompt: Korean, no context. */
  function KoreanPrompt(): (string, string) -> string {
    (q: string, a: string) => BuildBasicFeedbackPrompt(q, a, "ko", None)
  }

  /** `generateBatchFeedback`: errors label data row `i` as `i + 2`. */
  function GenerateBatchFeedback(
    questionRead: ReadReply, answerRead: ReadReply, questionRange: string, targetRange: string,
    ai: AiOracle, writeReply: WriteReply): (r: FeedbackRun)
    ensures questionRead.ReadFailed? || answerRead.ReadFailed? ==>
      && !r.result.success && r.result.errorCount == 1
      && ErrorList(r.result) == ReadErrors(ReportRows(questionRead), ReportRows(answerRead))
      && r.aiCalls == [] && r.write.None?
    ensures r.write.Some? <==>
      && questionRead.ReadOk? && answerRead.ReadOk?
      && |ReadValues(questionRead)| > 1 && |ReadValues(answerRead)| > 1
    ensures r.write.Some? ==>
      && r.write.value.range == targetRange
      && |r.write.value.values| == |ReadValues(questionRead)| - 1 == |r.progress|
      && (r.result.success <==> writeReply.WriteOk?)
  {
    RunBatch(ReportRows(questionRead), ReportRows(answerRead), questionRange, targetRange,
      KoreanPrompt(), 2, ai, writeReply)
  }

  /** Either read failing ends the batch before any request or write, with
      one error per failed read that carries both the batch's and the
      reader's prefix. */
  lemma ReadFailureStopsBatch(
    questionRead: ReadReply, answerRead: ReadReply, questionRange: string, targetRange: string,
    ai: AiOracle, writeReply: WriteReply)
    requires questionRead.ReadFailed? || answerRead.ReadFailed?
    ensures var run := GenerateBatchFeedback(questionRead, answerRead, questionRange, targetRange, ai, writeReply);
      var errors := ErrorList(run.result);
      && !run.result.success
      && run.result.processedCount == 0 && run.result.successCount == 0 && run.result.errorCount == 1
      && run.aiCalls == [] && run.write.None?
      && |errors| == (if questionRead.ReadFailed? then 1 else 0) + (if answerRead.ReadFailed? then 1 else 0)
      && (questionRead.ReadFailed? ==> errors[0] == ReadFailurePrefix + ReadReportPrefix + questionRead.error)
      && (answerRead.ReadFailed? ==>
            errors[|errors| - 1] == ReadFailurePrefix + ReadReportPrefix + answerRead.error)
  {
  }

  /** A range holding at most its header row has no data: the batch stops
      with the no-data error before any request or write. */
  lemma HeaderOnlyIsNoData(
    questionValues: Grid, answerValues: Grid, questionRange: string, targetRange: string,
    ai: AiOracle, writeReply: WriteReply)
    requires |questionValues| <= 1 || |answerValues| <= 1
    ensures var run := GenerateBatchFeedback(ReadOk(Some(questionValues)), ReadOk(Some(answerValues)),
        questionRange, targetRange, ai, writeReply);
      && run.result == BatchResult(false, 0, 0, 1, Some([NoData]))
      && run.aiCalls == [] && run.write.None?
  {
  }

  /** With data below both headers, the batch processes and writes one entry
      per question row after the header, and pairs data row `j` with sheet
      values row `j + 1` of both ranges. */
  lemma DataRowsFollowHeader(
    questionValues: Grid, answerValues: Grid, questionRange: string, targetRange: string,
    ai: AiOracle, writeReply: WriteReply)
    requires |questionValues| >= 2 && |answerValues| >= 2
    ensures var run := GenerateBatchFeedback(ReadOk(Some(questionValues)), ReadOk(Some(answerValues)),
        questionRange, targetRange, ai, writeReply);
      var pairs := Pairs(questionValues[1..], answerValues[1..]);
      && run.result.processedCount == |questionValues| - 1
      && run.write.Some? && |run.write.value.values| == |questionValues| - 1
      && |run.progress| == |questionValues| - 1
      && forall j | 0 <= j < |pairs| ::
           pairs[j] == RowPair(FeedbackBatch.CellText(questionValues, j + 1), FeedbackBatch.CellText(answerValues, j + 1))
  {
    var qs := questionValues[1..];
    var ans := answerValues[1..];
    var pairs := Pairs(qs, ans);
    forall j | 0 <= j < |pairs|
      ensures pairs[j] == RowPair(FeedbackBatch.CellText(questionValues, j + 1), FeedbackBatch.CellText(answerValues, j + 1))
    {
      assert qs[j] == questionValues[j + 1];
      if j < |ans| { assert ans[j] == answerValues[j + 1]; }
    }
  }

  /** Data row `j` is reported to the progress callback as sheet row
      `start + j`, where `start` is the first number in the question range
      (the batch's prompt is `KoreanPrompt()`; any prompt gives the same). */
  lemma DataRowProgress(
    questionRows: Grid, answerRows: Grid, questionRange: string, targetRange: string,
    prompt: (string, string) -> string, ai: AiOracle, writeReply: WriteReply, j: nat)
    requires 0 < |answerRows| && j < |questionRows|
    ensures RunBatch(Ok(questionRows), Ok(answerRows), questionRange, targetRange, prompt, 2, ai, writeReply).progress[j]
      == Progress(j + 1, |questionRows|, StartRow(questionRange) + j)
  {
    RunBatchParts(questionRows, answerRows, questionRange, targetRange, prompt, 2, ai, writeReply);
    BatchLoopProgress(questionRows, answerRows, questionRange, prompt, 2, ai, j);
  }

  /** A data row without question or answer gets an empty cell in the
      written column and an error labelling it `2 + j`. */
  lemma DataRowMissing(
    questionRows: Grid, answerRows: Grid, questionRange: string, targetRange: string,
    prompt: (string, string) -> string, ai: AiOracle, writeReply: WriteReply, j: nat)
    requires 0 < |answerRows| && j < |questionRows|
    ensures var run := RunBatch(Ok(questionRows), Ok(answerRows), questionRange, targetRange, prompt, 2, ai, writeReply);
      !Asks(Pairs(questionRows, answerRows)[j]) ==>
        run.write.value.values[j] == [""] && RowError(2 + j, MissingRow) in ErrorList(run.result)
  {
    var pairs := Pairs(questionRows, answerRows);
    if !Asks(pairs[j]) {
      var st := BatchLoop(questionRows, answerRows, questionRange, prompt, 2, ai);
      FeedbackLoopMissingRow(pairs, prompt, ai, StartRow(questionRange), 2, 0, 0, j);
      RunBatchParts(questionRows, answerRows, questionRange, targetRange, prompt, 2, ai, writeReply);
      LoopErrorKept(questionRows, answerRows, questionRange, targetRange, prompt, 2, ai, writeReply,
        RowError(2 + j, MissingRow));
    }
  }

  /** A data row with both texts sends the prompt for them, as request
      number `AskCount(pairs, 0, j)`. */
  lemma DataRowAsked(
    questionRows: Grid, answerRows: Grid, questionRange: string, targetRange: string,
    prompt: (string, string) -> string, ai: AiOracle, writeReply: WriteReply, j: nat)
    requires 0 < |answerRows| && j < |questionRows| && Asks(Pairs(questionRows, answerRows)[j])
    ensures var run := RunBatch(Ok(questionRows), Ok(answerRows), questionRange, targetRange, prompt, 2, ai, writeReply);
      var p := Pairs(questionRows, answerRows)[j];
      var c := AskCount(Pairs(questionRows, answerRows), 0, j);
      c < |run.aiCalls| && run.aiCalls[c] == AiRequest(Feedback, prompt(p.question, p.answer), None)
  {
    RunBatchParts(questionRows, answerRows, questionRange, targetRange, prompt, 2, ai, writeReply);
    FeedbackLoopAskedCall(Pairs(questionRows, answerRows), prompt, ai, StartRow(questionRange), 2, 0, 0, j);
  }

  /** Each request the batch sends is the one `generateBasicFeedback` sends
      for that row's trimmed texts in Korean without context, and a failed
      reply gives the same error. */
  lemma BatchRowIsBasicFeedback(questionRows: Grid, answerRows: Grid, reply: AiReply, j: nat)
    requires j < |questionRows| && Asks(Pairs(questionRows, answerRows)[j])
    ensures var p := Pairs(questionRows, answerRows)[j];
      var basic := GenerateBasicFeedback(p.question, p.answer, "ko", None, reply);
      && basic.request == Some(AiRequest(Feedback, KoreanPrompt()(p.question, p.answer), None))
      && basic.result == FeedbackFromReply(reply)
  {
    AskedRowPassesGuard(questionRows, answerRows, j);
  }
}
