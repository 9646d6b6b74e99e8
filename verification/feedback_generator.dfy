/** The feedback generator the batch pipeline of the newer service layer
    uses: it asks for one feedback per question/answer pair with a Korean
    prompt whose requirement block a custom prompt can replace. */
module FeedbackGenerator {
  import opened Values
  import opened JsString
  import opened SheetsApi
  import opened GeminiApi
  import opened BatchResults
  import opened FeedbackBatch

  /** The prompt's opening line and question label. */
  const Intro: string := "주어진 질문과 답변에 대해 건설적인 피드백을 제공해주세요.\n\n    질문: "

  /** The answer label between the question and the answer. */
  const AnswerLabel: string := "\n    답변: "

  /** The built-in requirement and format block. */
  const DefaultRequirements: string := "\n      ## 피드백 요구사항:\n      1. 잘한 점과 아쉬운 점을 균형있게 포함\n      2. 기술적 측면과 협업 측면에서의 세부 피드백\n      3. 구체적이고 실행 가능한 개선 방안 제시\n      4. 응답은 한글 기준 400자 내외로 작성\n      5. 마크다운 형식을 사용하지 말고 일반 텍스트로만 작성\n\n      ## 피드백 형식:\n      잘한 점:\n      - 기술적 측면\n      - 협업 측면\n      아쉬운 점:\n      - 기술적 측면\n      - 협업 측면\n      개선 방안:\n      - 구체적인 실행 방안"

  /** The heading put before a custom prompt. */
  const CustomHeading: string := "## 피드백 요구사항:\n"

  /** The block after the answer: the custom prompt under its heading when
      one is given and non-empty, the built-in block otherwise. */
  function Requirements(customPrompt: Option<string>): (r: string)
    ensures customPrompt.Some? && customPrompt.value != "" ==> r == CustomHeading + customPrompt.value
    ensures customPrompt.None? || customPrompt.value == "" ==> r == DefaultRequirements
  {
    if customPrompt.Some? && customPrompt.value != "" then CustomHeading + customPrompt.value
    else DefaultRequirements
  }

  /** `buildFeedbackPrompt`: the introduction, the question, the answer
      label and the answer, then the requirement block after a blank line. */
  function BuildFeedbackPrompt(question: string, answer: string, customPrompt: Option<string>): (p: string)
    ensures StartsWith(p, Intro)
    ensures OccursAt(p, question, |Intro|)
    ensures OccursAt(p, answer, |Intro| + |question| + |AnswerLabel|)
    ensures EndsWith(p, "\n\n" + Requirements(customPrompt))
    ensures |p| == |Intro| + |question| + |AnswerLabel| + |answer| + 2 + |Requirements(customPrompt)|
  {
    Layout5(Intro, question, AnswerLabel, answer, "\n\n" + Requirements(customPrompt));
    Intro + question + AnswerLabel + answer + ("\n\n" + Requirements(customPrompt))
  }

  /** The prompt opens with the fixed introduction, carries the question and
      the answer verbatim at fixed places, and ends with the custom prompt
      when there is one and with the built-in block otherwise. */
  lemma FeedbackPromptLayout(question: string, answer: string, customPrompt: Option<string>)
    ensures var p := BuildFeedbackPrompt(question, answer, customPrompt);
      && StartsWith(p, Intro)
      && OccursAt(p, question, |Intro|)
      && OccursAt(p, answer, |Intro| + |question| + |AnswerLabel|)
      && (customPrompt.Some? && customPrompt.value != "" ==> EndsWith(p, customPrompt.value))
      && (customPrompt.None? || customPrompt.value == "" ==> EndsWith(p, DefaultRequirements))
  {
    var p := BuildFeedbackPrompt(question, answer, customPrompt);
    var tail := "\n\n" + Requirements(customPrompt);
    Layout5(Intro, question, AnswerLabel, answer, tail);
    if customPrompt.Some? && customPrompt.value != "" {
      ConcatAssoc("\n\n", CustomHeading, customPrompt.value);
      EndsWithPart(p, "\n\n" + CustomHeading, customPrompt.value);
    } else {
      EndsWithPart(p, "\n\n", DefaultRequirements);
    }
  }

  /** `generateBasicFeedback` given the service's reply to its request. */
  function GenerateBasicFeedback(question: string, answer: string, customPrompt: Option<string>, reply: AiReply)
    : (r: BasicFeedback)
    ensures r.request.None? <==> !HasQuestionAndAnswer(question, answer)
    ensures r.request.None? ==> r.result == FeedbackErr(MissingInput)
    ensures r.request.Some? ==>
      && r.request.value == AiRequest(Feedback, BuildFeedbackPrompt(question, answer, customPrompt), None)
      && (r.result.FeedbackOk? <==> reply.success)
      && r.result == FeedbackFromReply(reply)
  {
    if !HasQuestionAndAnswer(question, answer) then BasicFeedback(None, FeedbackErr(MissingInput))
    else
      BasicFeedback(Some(AiRequest(Feedback, BuildFeedbackPrompt(question, answer, customPrompt), None)),
        FeedbackFromReply(reply))
  }

  /** `result.data?.values || []`, or the read's error. */
  function SheetRows(read: ReadReply): (r: Result<Grid>)
    ensures read.ReadFailed? ==> r == Err(read.error)
    ensures read.ReadOk? && read.values.Some? ==> r == Ok(read.values.value)
    ensures read.ReadOk? && read.values.None? ==> r == Ok([])
  {
    match read
    case ReadFailed(e) => Err(e)
    case ReadOk(v) => Ok(v.GetOr([]))
  }

  /** The prompt builder the batch hands to the loop. */
  function PromptWith(customPrompt: Option<string>): (string, string) -> string {
    (q: string, a: string) => BuildFeedbackPrompt(q, a, customPrompt)
  }

  /** `generateBatchFeedback` as written: errors label row `i` as `i + 2`. */
  function GenerateBatchFeedbackAsWritten(
    questionRead: ReadReply, answerRead: ReadReply, questionRange: string, targetRange: string,
    customPrompt: Option<string>, ai: AiOracle, writeReply: WriteReply): (r: FeedbackRun)
    ensures questionRead.ReadFailed? || answerRead.ReadFailed? ==>
      && !r.result.success && r.result.errorCount == 1
      && ErrorList(r.result) == ReadErrors(SheetRows(questionRead), SheetRows(answerRead))
      && r.aiCalls == [] && r.write.None?
    ensures r.write.Some? <==>
      && questionRead.ReadOk? && answerRead.ReadOk?
      && |SheetRows(questionRead).value| > 0 && |SheetRows(answerRead).value| > 0
    ensures r.write.Some? ==>
      && r.write.value.range == targetRange
      && |r.write.value.values| == |SheetRows(questionRead).value| == |r.progress|
      && (r.result.success <==> writeReply.WriteOk?)
  {
    RunBatch(SheetRows(questionRead), SheetRows(answerRead), questionRange, targetRange,
      PromptWith(customPrompt), 2, ai, writeReply)
  }

  /** `generateBatchFeedback` with errors labelled by the sheet row the
      progress callback reports for the same row. */
  function GenerateBatchFeedback(
    questionRead: ReadReply, answerRead: ReadReply, questionRange: string, targetRange: string,
    customPrompt: Option<string>, ai: AiOracle, writeReply: WriteReply): (r: FeedbackRun)
    ensures questionRead.ReadFailed? || answerRead.ReadFailed? ==>
      && !r.result.success && r.result.errorCount == 1
      && ErrorList(r.result) == ReadErrors(SheetRows(questionRead), SheetRows(answerRead))
      && r.aiCalls == [] && r.write.None?
    ensures r.write.Some? <==>
      && questionRead.ReadOk? && answerRead.ReadOk?
      && |SheetRows(questionRead).value| > 0 && |SheetRows(answerRead).value| > 0
    ensures r.write.Some? ==>
      && r.write.value.range == targetRange
      && |r.write.value.values| == |SheetRows(questionRead).value| == |r.progress|
      && (r.result.success <==> writeReply.WriteOk?)
  {
    RunBatch(SheetRows(questionRead), SheetRows(answerRead), questionRange, targetRange,
      PromptWith(customPrompt), StartRow(questionRange), ai, writeReply)
  }

  /** As written (label base 2, whatever the prompt): when the question
      range starts at a sheet row `r` other than 2 and its first question is
      blank, the progress callback reports that row as `r` while its error
      names it "Row 2". */
  lemma AsWrittenLabelDisagreesWithProgress(
    questionRows: Grid, answerRows: Grid, column: string, r: nat, rest: string, targetRange: string,
    prompt: (string, string) -> string, ai: AiOracle, writeReply: WriteReply)
    requires NoDigits(column) && (rest == [] || !IsDigit(rest[0])) && r != 2
    requires |questionRows| > 0 && |answerRows| > 0 && AllWhitespace(JoinComma(questionRows[0]))
    ensures var run := RunBatch(Ok(questionRows), Ok(answerRows), column + NatToString(r) + rest,
        targetRange, prompt, 2, ai, writeReply);
      && run.progress[0].row == r
      && RowError(2, MissingRow) in ErrorList(run.result)
  {
    var range := column + NatToString(r) + rest;
    var pairs := Pairs(questionRows, answerRows);
    var st := BatchLoop(questionRows, answerRows, range, prompt, 2, ai);
    assert st.progress[0].row == r by {
      BatchLoopProgress(questionRows, answerRows, range, prompt, 2, ai, 0);
      StartRowOfBuiltRange(column, r, rest);
    }
    assert RowError(2, MissingRow) in st.errors by {
      assert !Asks(pairs[0]);
      FeedbackLoopMissingRow(pairs, prompt, ai, StartRow(range), 2, 0, 0, 0);
    }
    LoopErrorKept(questionRows, answerRows, range, targetRange, prompt, 2, ai, writeReply, RowError(2, MissingRow));
    RunBatchParts(questionRows, answerRows, range, targetRange, prompt, 2, ai, writeReply);
  }

  /** With the start row as label base, every error names the sheet row the
      progress callback reported for the same row. */
  lemma {:induction false} LabelsMatchProgress(
    pairs: seq<RowPair>, prompt: (string, string) -> string, ai: AiOracle, startRow: nat, j: nat)
    requires j < |pairs|
    ensures var st := FeedbackLoop(pairs, prompt, ai, startRow, startRow, 0, 0);
      var row := st.progress[j].row;
      var reply := ai(AskCount(pairs, 0, j));
      && (!Asks(pairs[j]) ==> RowError(row, MissingRow) in st.errors)
      && (Asks(pairs[j]) && !reply.success ==> RowError(row, ReplyError(reply)) in st.errors)
  {
    FeedbackLoopProgress(pairs, prompt, ai, startRow, startRow, 0, 0, j);
    if Asks(pairs[j]) {
      FeedbackLoopAskedReply(pairs, prompt, ai, startRow, startRow, 0, 0, j);
    } else {
      FeedbackLoopMissingRow(pairs, prompt, ai, startRow, startRow, 0, 0, j);
    }
  }

  /** In the corrected batch, every row error names the sheet row that the
      progress callback reported for the same row. */
  lemma BatchLabelsMatchProgress(
    questionRows: Grid, answerRows: Grid, questionRange: string, targetRange: string,
    customPrompt: Option<string>, ai: AiOracle, writeReply: WriteReply, j: nat)
    requires 0 < |answerRows| && j < |questionRows|
    ensures var run := GenerateBatchFeedback(ReadOk(Some(questionRows)), ReadOk(Some(answerRows)),
        questionRange, targetRange, customPrompt, ai, writeReply);
      var pairs := Pairs(questionRows, answerRows);
      var reply := ai(AskCount(pairs, 0, j));
      && (!Asks(pairs[j]) ==> RowError(run.progress[j].row, MissingRow) in ErrorList(run.result))
      && (Asks(pairs[j]) && !reply.success ==>
            RowError(run.progress[j].row, ReplyError(reply)) in ErrorList(run.result))
  {
    var pairs := Pairs(questionRows, answerRows);
    var prompt := PromptWith(customPrompt);
    var start := StartRow(questionRange);
    var run := GenerateBatchFeedback(ReadOk(Some(questionRows)), ReadOk(Some(answerRows)),
        questionRange, targetRange, customPrompt, ai, writeReply);
    assert run == RunBatch(Ok(questionRows), Ok(answerRows), questionRange, targetRange, prompt, start, ai, writeReply);
    var st := FeedbackLoop(pairs, prompt, ai, start, start, 0, 0);
    assert run.progress == st.progress && st.errors <= ErrorList(run.result) by {
      RunBatchParts(questionRows, answerRows, questionRange, targetRange, prompt, start, ai, writeReply);
    }
    LabelsMatchProgress(pairs, prompt, ai, start, j);
    var reply := ai(AskCount(pairs, 0, j));
    if !Asks(pairs[j]) {
      PrefixKeeps(st.errors, ErrorList(run.result), RowError(st.progress[j].row, MissingRow));
    } else if !reply.success {
      PrefixKeeps(st.errors, ErrorList(run.result), RowError(st.progress[j].row, ReplyError(reply)));
    }
  }

  /** Each request the batch sends is the one `generateBasicFeedback` sends
      for that row's trimmed texts, and a failed reply gives the same error. */
  lemma BatchRowIsBasicFeedback(
    questionRows: Grid, answerRows: Grid, customPrompt: Option<string>, reply: AiReply, j: nat)
    requires j < |questionRows| && Asks(Pairs(questionRows, answerRows)[j])
    ensures var p := Pairs(questionRows, answerRows)[j];
      var basic := GenerateBasicFeedback(p.question, p.answer, customPrompt, reply);
      && basic.request == Some(AiRequest(Feedback, PromptWith(customPrompt)(p.question, p.answer), None))
      && basic.result == FeedbackFromReply(reply)
  {
    AskedRowPassesGuard(questionRows, answerRows, j);
  }
}
