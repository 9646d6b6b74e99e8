/** The part both feedback generators share: the API-key check, turning one
    service reply into a feedback result, and the batch that reads a question
    column and an answer column, asks for one feedback per row and writes the
    feedback column back. The two generators differ only in how the rows are
    read, how the prompt is built, and which number labels a row in errors. */
module FeedbackBatch {
  import opened Values
  import opened JsString
  import opened SheetsApi
  import opened GeminiApi
  import opened BatchResults

  /** The constructor's guard: a missing or blank key is refused. */
  function RequireApiKey(apiKey: string): (r: Option<string>)
    ensures r.Some? <==> Trim(apiKey) == ""
    ensures r.Some? ==> r.value == "API key is required"
  {
    BlankIffTrimEmpty(apiKey);
    if IsBlank(apiKey) then Some("API key is required") else None
  }

  /** A `FeedbackResult` without its timing metadata. */
  datatype FeedbackResult = FeedbackOk(feedback: string, tokensUsed: int) | FeedbackErr(error: string)

  /** The guard both `generateBasicFeedback`s apply before calling the service. */
  predicate HasQuestionAndAnswer(question: string, answer: string) {
    !IsBlank(question) && !IsBlank(answer)
  }

  const MissingInput := "Question and answer are required"

  /** A `generateBasicFeedback` call: the request sent, if any, and the result. */
  datatype BasicFeedback = BasicFeedback(request: Option<AiRequest>, result: FeedbackResult)

  /** What `generateBasicFeedback` reports once the service has replied. */
  function FeedbackFromReply(reply: AiReply): (r: FeedbackResult)
    ensures r.FeedbackOk? <==> reply.success
    ensures r.FeedbackOk? ==> r.feedback == reply.processedText
    ensures r.FeedbackOk? && reply.tokensUsed.Some? ==> r.tokensUsed == reply.tokensUsed.value
    ensures r.FeedbackOk? && reply.tokensUsed.None? ==> r.tokensUsed == 0
    ensures r.FeedbackErr? ==> r.error == ReplyError(reply)
  {
    if reply.success then FeedbackOk(reply.processedText, reply.tokensUsed.GetOr(0))
    else FeedbackErr(ReplyError(reply))
  }

  /** The message of a failed reply: the service's own text, or
      `Unknown error` when it gave none, behind a fixed prefix. */
  function ReplyError(reply: AiReply): (e: string)
    ensures reply.processedText != "" ==> e == "Feedback generation failed: " + reply.processedText
    ensures reply.processedText == "" ==> e == "Feedback generation failed: Unknown error"
  {
    "Feedback generation failed: " + (if reply.processedText != "" then reply.processedText else "Unknown error")
  }

  /** `rows.at(i)?.toString().trim() || ""`: the row's cells joined with
      commas and trimmed, or `""` past the end. */
  function CellText(rows: Grid, i: nat): (t: string)
    ensures i >= |rows| ==> t == ""
    ensures t == "" <==> i >= |rows| || AllWhitespace(JoinComma(rows[i]))
    ensures i < |rows| ==> t == Trim(JoinComma(rows[i]))
  {
    if i < |rows| then Trim(JoinComma(rows[i])) else ""
  }

  /** The trimmed question and answer of one row. */
  datatype RowPair = RowPair(question: string, answer: string)

  /** A row the batch sends to the service: both texts are present. */
  predicate Asks(p: RowPair) {
    p.question != "" && p.answer != ""
  }

  /** One pair per question row; the answer column may be shorter or longer. */
  function Pairs(questionRows: Grid, answerRows: Grid): (pairs: seq<RowPair>)
    ensures |pairs| == |questionRows|
    ensures forall i | 0 <= i < |pairs| ::
      pairs[i] == RowPair(CellText(questionRows, i), CellText(answerRows, i))
  {
    seq(|questionRows|, i requires 0 <= i < |questionRows| =>
      RowPair(CellText(questionRows, i), CellText(answerRows, i)))
  }

  /** The sheet row `(\d+)` names in a range such as `"E2:F10"`: the first
      run of digits, parsed, or 1 when the range holds no digit. */
  function StartRow(range: string): (n: nat)
    ensures FirstDigitRun(range).None? ==> n == 1
    ensures FirstDigitRun(range).Some? ==> n == ParseDigits(FirstDigitRun(range).value)
  {
    match FirstDigitRun(range)
    case None => 1
    case Some(d) => ParseDigits(d)
  }

  /** For a range written `${column}${row}:…`, as the popup builds it, the
      start row is `row` again. */
  lemma StartRowOfBuiltRange(column: string, row: nat, rest: string)
    requires NoDigits(column)
    requires rest == [] || !IsDigit(rest[0])
    ensures StartRow(column + NatToString(row) + rest) == row
  {
    FirstDigitRunAfter(column, NatToString(row), rest);
    ParseNatToString(row);
  }

  /** The per-row error text: `Row ${row}: ${message}`. */
  function RowError(row: nat, message: string): string {
    "Row " + NatToString(row) + ": " + message
  }

  const MissingRow := "Missing question or answer"

  /** What the loop has accumulated. `calls` are the prompts sent, in order;
      `progress` are the callback's arguments, one per row. */
  datatype LoopState = LoopState(
    feedbacks: seq<string>,
    errors: seq<string>,
    successCount: nat,
    errorCount: nat,
    calls: seq<AiRequest>,
    progress: seq<Progress>)

  /** Number of rows in `pairs[lo..hi]` that are sent to the service. */
  function AskCount(pairs: seq<RowPair>, lo: nat, hi: nat): (c: nat)
    requires lo <= hi <= |pairs|
    ensures c <= hi - lo
    decreases hi - lo
  {
    if lo == hi then 0 else (if Asks(pairs[lo]) then 1 else 0) + AskCount(pairs, lo + 1, hi)
  }

  /** The reply row `r` of `pairs[i..]` gets: the loop asks the service once
      per row with both texts, so it is the reply after the ones the earlier
      rows took. */
  function ReplyFor(pairs: seq<RowPair>, ai: AiOracle, i: nat, k: nat, r: nat): AiReply
    requires i <= r <= |pairs|
  {
    ai(k + AskCount(pairs, i, r))
  }

  /** The feedback text the loop stores for row `p` given its reply: the
      reply's text when the row is sent and the reply succeeds (the feedback
      `FeedbackFromReply` reports then), `""` otherwise. */
  function RowFeedback(p: RowPair, reply: AiReply): string {
    if Asks(p) && reply.success then reply.processedText else ""
  }

  /** The error row `p`, labelled `row`, leaves given its reply: the
      missing-row message when it is not sent, the reply's message when the
      reply failed, none otherwise. */
  function RowFailure(p: RowPair, row: nat, reply: AiReply): Option<string> {
    if !Asks(p) then Some(RowError(row, MissingRow))
    else if reply.success then None
    else Some(RowError(row, ReplyError(reply)))
  }

  /** The feedback texts the `for` loop collects for rows `i ..` of `pairs`,
      the service's next reply being `ai(k)`. */
  function LoopFeedbacks(pairs: seq<RowPair>, ai: AiOracle, i: nat, k: nat): (f: seq<string>)
    requires i <= |pairs|
    ensures |f| == |pairs| - i
    ensures forall r | i <= r < |pairs| :: f[r - i] == RowFeedback(pairs[r], ReplyFor(pairs, ai, i, k, r))
  {
    seq(|pairs| - i, n requires 0 <= n < |pairs| - i => RowFeedback(pairs[i + n], ReplyFor(pairs, ai, i, k, i + n)))
  }

  /** Each row's failure, if any, for rows `i ..`, row `r` labelled
      `labelBase + r`. */
  function Failures(pairs: seq<RowPair>, ai: AiOracle, labelBase: nat, i: nat, k: nat): (f: seq<Option<string>>)
    requires i <= |pairs|
    ensures |f| == |pairs| - i
  {
    seq(|pairs| - i, n requires 0 <= n < |pairs| - i =>
      RowFailure(pairs[i + n], labelBase + i + n, ReplyFor(pairs, ai, i, k, i + n)))
  }

  /** The errors the loop collects for rows `i ..`, row `r` labelled
      `labelBase + r`, in row order. */
  function LoopErrors(pairs: seq<RowPair>, ai: AiOracle, labelBase: nat, i: nat, k: nat): (e: seq<string>)
    requires i <= |pairs|
    ensures |e| <= |pairs| - i
  {
    Somes(Failures(pairs, ai, labelBase, i, k))
  }

  /** How many of rows `lo ..` (of a loop that started at row `i` with the
      service's next reply `ai(k)`) are sent and get a successful reply:
      the rows the loop counts as successes. */
  function SuccessTally(pairs: seq<RowPair>, ai: AiOracle, i: nat, k: nat, lo: nat): (n: nat)
    requires i <= lo <= |pairs|
    ensures n <= |pairs| - lo
    decreases |pairs| - lo
  {
    if lo == |pairs| then 0
    else
      (if Asks(pairs[lo]) && ReplyFor(pairs, ai, i, k, lo).success then 1 else 0)
        + SuccessTally(pairs, ai, i, k, lo + 1)
  }

  /** Rows `lo ..` leave one error each, except the ones that succeed. */
  lemma {:induction false} FailuresCount(pairs: seq<RowPair>, ai: AiOracle, labelBase: nat, i: nat, k: nat, lo: nat)
    requires i <= lo <= |pairs|
    ensures |Somes(Failures(pairs, ai, labelBase, i, k)[lo - i..])| + SuccessTally(pairs, ai, i, k, lo) == |pairs| - lo
    decreases |pairs| - lo
  {
    var f := Failures(pairs, ai, labelBase, i, k);
    if lo < |pairs| {
      FailuresCount(pairs, ai, labelBase, i, k, lo + 1);
      var tail := f[lo - i..];
      assert tail[1..] == f[lo + 1 - i..];
      var failure := RowFailure(pairs[lo], labelBase + lo, ReplyFor(pairs, ai, i, k, lo));
      assert tail[0] == failure;
      assert failure.None? <==> Asks(pairs[lo]) && ReplyFor(pairs, ai, i, k, lo).success;
      assert Somes(tail) == (if failure.Some? then [failure.value] else []) + Somes(tail[1..]);
    }
  }

  /** Every row of the loop either succeeds or leaves exactly one error. */
  lemma LoopErrorsCount(pairs: seq<RowPair>, ai: AiOracle, labelBase: nat, i: nat, k: nat)
    requires i <= |pairs|
    ensures |LoopErrors(pairs, ai, labelBase, i, k)| + SuccessTally(pairs, ai, i, k, i) == |pairs| - i
  {
    FailuresCount(pairs, ai, labelBase, i, k, i);
    var f := Failures(pairs, ai, labelBase, i, k);
    assert f[0..] == f;
  }

  /** The prompts the loop sends for rows `i ..`, one per row with both
      texts, in row order. */
  function LoopCalls(pairs: seq<RowPair>, prompt: (string, string) -> string, i: nat): (c: seq<AiRequest>)
    requires i <= |pairs|
    ensures |c| == AskCount(pairs, i, |pairs|)
    decreases |pairs| - i
  {
    if i == |pairs| then []
    else
      (if Asks(pairs[i]) then [AiRequest(Feedback, prompt(pairs[i].question, pairs[i].answer), None)] else [])
        + LoopCalls(pairs, prompt, i + 1)
  }

  /** The `for` loop over rows `i ..` of `pairs`, its accumulators taken one
      by one: the service's next reply is `ai(k)`; row `r` is labelled
      `labelBase + r` in errors and reported to the progress callback as
      `(r + 1, total, startRow + r)`. Every row either counts as a success
      or leaves exactly one error: the success count is the number of rows
      sent whose reply succeeded, and the error count the number of the
      others. */
  function FeedbackLoop(
    pairs: seq<RowPair>, prompt: (string, string) -> string, ai: AiOracle,
    startRow: nat, labelBase: nat, i: nat, k: nat): (st: LoopState)
    requires i <= |pairs|
    ensures |st.feedbacks| == |pairs| - i
    ensures |st.progress| == |pairs| - i
    ensures st.successCount + st.errorCount == |pairs| - i
    ensures st.successCount == SuccessTally(pairs, ai, i, k, i)
    ensures st.errorCount == |pairs| - i - SuccessTally(pairs, ai, i, k, i)
    ensures |st.errors| == st.errorCount
    ensures |st.calls| == AskCount(pairs, i, |pairs|)
  {
    LoopErrorsCount(pairs, ai, labelBase, i, k);
    var errors := LoopErrors(pairs, ai, labelBase, i, k);
    LoopState(
      LoopFeedbacks(pairs, ai, i, k),
      errors,
      |pairs| - i - |errors|, |errors|,
      LoopCalls(pairs, prompt, i),
      seq(|pairs| - i, n requires 0 <= n < |pairs| - i => Progress(i + n + 1, |pairs|, startRow + i + n)))
  }

  /** The progress callback sees `(row + 1, total, startRow + row)` for every
      row in order. */
  lemma FeedbackLoopProgress(
    pairs: seq<RowPair>, prompt: (string, string) -> string, ai: AiOracle,
    startRow: nat, labelBase: nat, i: nat, k: nat, j: nat)
    requires i <= j < |pairs|
    ensures FeedbackLoop(pairs, prompt, ai, startRow, labelBase, i, k).progress[j - i]
      == Progress(j + 1, |pairs|, startRow + j)
  {
  }

  /** A row missing its question or its answer gets an empty feedback and an
      error naming it. */
  lemma FeedbackLoopMissingRow(
    pairs: seq<RowPair>, prompt: (string, string) -> string, ai: AiOracle,
    startRow: nat, labelBase: nat, i: nat, k: nat, j: nat)
    requires i <= j < |pairs| && !Asks(pairs[j])
    ensures var st := FeedbackLoop(pairs, prompt, ai, startRow, labelBase, i, k);
      st.feedbacks[j - i] == "" && RowError(labelBase + j, MissingRow) in st.errors
  {
    LoopErrorsAt(pairs, ai, labelBase, i, k, j);
  }

  /** Row `j`'s error, when it has one, is among the loop's errors. */
  lemma LoopErrorsAt(pairs: seq<RowPair>, ai: AiOracle, labelBase: nat, i: nat, k: nat, j: nat)
    requires i <= j < |pairs|
    ensures var failure := RowFailure(pairs[j], labelBase + j, ReplyFor(pairs, ai, i, k, j));
      failure.Some? ==> failure.value in LoopErrors(pairs, ai, labelBase, i, k)
  {
    var failures := Failures(pairs, ai, labelBase, i, k);
    if failures[j - i].Some? {
      SomesHas(failures, j - i);
    }
  }

  /** Any other row sends its prompt as call number `AskCount(pairs, i, j)`. */
  lemma {:induction false} FeedbackLoopAskedCall(
    pairs: seq<RowPair>, prompt: (string, string) -> string, ai: AiOracle,
    startRow: nat, labelBase: nat, i: nat, k: nat, j: nat)
    requires i <= j < |pairs| && Asks(pairs[j])
    ensures var st := FeedbackLoop(pairs, prompt, ai, startRow, labelBase, i, k);
      var c := AskCount(pairs, i, j);
      c < |st.calls| && st.calls[c] == AiRequest(Feedback, prompt(pairs[j].question, pairs[j].answer), None)
  {
    LoopCallsAt(pairs, prompt, i, j);
  }

  lemma {:induction false} LoopCallsAt(pairs: seq<RowPair>, prompt: (string, string) -> string, i: nat, j: nat)
    requires i <= j < |pairs| && Asks(pairs[j])
    ensures var c := AskCount(pairs, i, j);
      c < |LoopCalls(pairs, prompt, i)|
      && LoopCalls(pairs, prompt, i)[c] == AiRequest(Feedback, prompt(pairs[j].question, pairs[j].answer), None)
    decreases j - i
  {
    var head := if Asks(pairs[i]) then [AiRequest(Feedback, prompt(pairs[i].question, pairs[i].answer), None)] else [];
    var rest := LoopCalls(pairs, prompt, i + 1);
    assert LoopCalls(pairs, prompt, i) == head + rest;
    if i < j {
      LoopCallsAt(pairs, prompt, i + 1, j);
      AskCountStep(pairs, i, j);
      ShiftedIndex(head, rest, AskCount(pairs, i + 1, j));
    } else {
      assert AskCount(pairs, i, j) == 0;
    }
  }

  /** An element of the tail keeps its value behind a head. */
  lemma ShiftedIndex<T>(head: seq<T>, rest: seq<T>, c: nat)
    requires c < |rest|
    ensures |head| + c < |head + rest| && (head + rest)[|head| + c] == rest[c]
  {
  }

  /** That row's feedback is the reply's text, or empty with an error naming
      the row when the reply failed. */
  lemma FeedbackLoopAskedReply(
    pairs: seq<RowPair>, prompt: (string, string) -> string, ai: AiOracle,
    startRow: nat, labelBase: nat, i: nat, k: nat, j: nat)
    requires i <= j < |pairs| && Asks(pairs[j])
    ensures var st := FeedbackLoop(pairs, prompt, ai, startRow, labelBase, i, k);
      var reply := ai(k + AskCount(pairs, i, j));
      && (reply.success ==> st.feedbacks[j - i] == reply.processedText)
      && (!reply.success ==>
            st.feedbacks[j - i] == "" && RowError(labelBase + j, ReplyError(reply)) in st.errors)
  {
    LoopErrorsAt(pairs, ai, labelBase, i, k, j);
  }

  /** Counting from row `i` is counting row `i`, then the rest. */
  lemma AskCountStep(pairs: seq<RowPair>, i: nat, j: nat)
    requires i < j <= |pairs|
    ensures AskCount(pairs, i, j) == (if Asks(pairs[i]) then 1 else 0) + AskCount(pairs, i + 1, j)
  {
  }

  /** The ask count of a range splits at its first row, and stays below the
      count of the whole tail. */
  lemma {:induction false} AskCountSplit(pairs: seq<RowPair>, i: nat, j: nat)
    requires i <= j < |pairs|
    ensures AskCount(pairs, i, j) + (if Asks(pairs[j]) then 1 else 0) <= AskCount(pairs, i, |pairs|)
    decreases j - i
  {
    if i < j {
      AskCountSplit(pairs, i + 1, j);
    } else {
      assert AskCount(pairs, i, j) == 0;
    }
  }

  /** How the two reads came back: the rows, or the read's error message. */
  datatype FeedbackRun = FeedbackRun(
    result: BatchResult,
    aiCalls: seq<AiRequest>,
    write: Option<WriteCall>,
    progress: seq<Progress>)

  const ReadFailurePrefix := "Failed to read spreadsheet data: "
  const NoData := "No data found in the specified range"
  const WriteFailurePrefix := "Failed to write to spreadsheet: "

  /** The messages for the reads that failed, question read first. */
  function ReadErrors(questions: Result<Grid>, answers: Result<Grid>): (errors: seq<string>)
    ensures |errors| == (if questions.Err? then 1 else 0) + (if answers.Err? then 1 else 0)
    ensures questions.Err? ==> errors[0] == ReadFailurePrefix + questions.error
    ensures answers.Err? ==> errors[|errors| - 1] == ReadFailurePrefix + answers.error
  {
    (if questions.Err? then [ReadFailurePrefix + questions.error] else [])
      + (if answers.Err? then [ReadFailurePrefix + answers.error] else [])
  }

  /** One column with one feedback per row. */
  function Column(texts: seq<string>): (values: Grid)
    ensures |values| == |texts|
    ensures forall i | 0 <= i < |texts| :: values[i] == [texts[i]]
  {
    seq(|texts|, i requires 0 <= i < |texts| => [texts[i]])
  }

  /** `generateBatchFeedback` once both reads are done. */
  function RunBatch(
    questions: Result<Grid>, answers: Result<Grid>, questionRange: string, targetRange: string,
    prompt: (string, string) -> string, labelBase: nat, ai: AiOracle, writeReply: WriteReply)
    : (run: FeedbackRun)
    ensures questions.Err? || answers.Err? ==> run == FeedbackRun(
      BatchResult(false, 0, 0, 1, Some(ReadErrors(questions, answers))), [], None, [])
    ensures questions.Ok? && answers.Ok? && (|questions.value| == 0 || |answers.value| == 0) ==>
      run == FeedbackRun(BatchResult(false, 0, 0, 1, Some([NoData])), [], None, [])
    ensures run.write.Some? <==> questions.Ok? && answers.Ok? && |questions.value| > 0 && |answers.value| > 0
    ensures run.write.Some? ==>
      && run.result.processedCount == |questions.value|
      && run.write.value.range == targetRange
      && |run.write.value.values| == |questions.value|
      && |run.progress| == |questions.value|
      && run.result.successCount + run.result.errorCount
           == |questions.value| + (if writeReply.WriteFailed? then 1 else 0)
      && (run.result.success <==> writeReply.WriteOk?)
    ensures questions.Ok? && answers.Ok? && run.write.Some? ==>
      var tally := SuccessTally(Pairs(questions.value, answers.value), ai, 0, 0, 0);
      && run.result.successCount == tally
      && run.result.errorCount == |questions.value| - tally + (if writeReply.WriteFailed? then 1 else 0)
    ensures run.write.Some? && writeReply.WriteFailed? ==>
      |ErrorList(run.result)| > 0
      && ErrorList(run.result)[|ErrorList(run.result)| - 1] == WriteFailurePrefix + writeReply.error
  {
    if questions.Err? || answers.Err? then
      FeedbackRun(BatchResult(false, 0, 0, 1, Some(ReadErrors(questions, answers))), [], None, [])
    else if |questions.value| == 0 || |answers.value| == 0 then
      FeedbackRun(BatchResult(false, 0, 0, 1, Some([NoData])), [], None, [])
    else
      var pairs := Pairs(questions.value, answers.value);
      var st := FeedbackLoop(pairs, prompt, ai, StartRow(questionRange), labelBase, 0, 0);
      var call := WriteCall(targetRange, Column(st.feedbacks));
      var n := |pairs|;
      match writeReply
      case WriteFailed(e) =>
        FeedbackRun(
          BatchResult(false, n, st.successCount, st.errorCount + 1,
            Some(st.errors + [WriteFailurePrefix + e])),
          st.calls, Some(call), st.progress)
      case WriteOk =>
        FeedbackRun(
          BatchResult(true, n, st.successCount, st.errorCount, ErrorsOrUndefined(st.errors)),
          st.calls, Some(call), st.progress)
  }

  /** The loop's state inside a batch whose reads both returned rows. */
  function BatchLoop(questionRows: Grid, answerRows: Grid, questionRange: string,
    prompt: (string, string) -> string, labelBase: nat, ai: AiOracle): LoopState
  {
    FeedbackLoop(Pairs(questionRows, answerRows), prompt, ai, StartRow(questionRange), labelBase, 0, 0)
  }

  /** A batch with rows reports the loop's progress, sends the loop's
      requests, writes the loop's feedbacks and keeps every loop error. */
  lemma RunBatchParts(
    questionRows: Grid, answerRows: Grid, questionRange: string, targetRange: string,
    prompt: (string, string) -> string, labelBase: nat, ai: AiOracle, writeReply: WriteReply)
    requires 0 < |answerRows| && 0 < |questionRows|
    ensures var run := RunBatch(Ok(questionRows), Ok(answerRows), questionRange, targetRange,
        prompt, labelBase, ai, writeReply);
      var st := BatchLoop(questionRows, answerRows, questionRange, prompt, labelBase, ai);
      && run.progress == st.progress
      && run.aiCalls == st.calls
      && run.write == Some(WriteCall(targetRange, Column(st.feedbacks)))
      && st.errors <= ErrorList(run.result)
      && run.result.successCount == st.successCount
      && run.result.errorCount == st.errorCount + (if writeReply.WriteFailed? then 1 else 0)
  {
  }

  /** Inside a batch, data row `j` is reported to the progress callback as
      sheet row `start + j`, where `start` is the first number in the
      question range. */
  lemma BatchLoopProgress(
    questionRows: Grid, answerRows: Grid, questionRange: string,
    prompt: (string, string) -> string, labelBase: nat, ai: AiOracle, j: nat)
    requires j < |questionRows|
    ensures BatchLoop(questionRows, answerRows, questionRange, prompt, labelBase, ai).progress[j]
      == Progress(j + 1, |questionRows|, StartRow(questionRange) + j)
  {
    FeedbackLoopProgress(Pairs(questionRows, answerRows), prompt, ai, StartRow(questionRange), labelBase, 0, 0, j);
  }

  /** Every error the loop records is among the batch's errors. */
  lemma LoopErrorKept(
    questionRows: Grid, answerRows: Grid, questionRange: string, targetRange: string,
    prompt: (string, string) -> string, labelBase: nat, ai: AiOracle, writeReply: WriteReply, e: string)
    requires 0 < |answerRows| && 0 < |questionRows|
    requires e in BatchLoop(questionRows, answerRows, questionRange, prompt, labelBase, ai).errors
    ensures e in ErrorList(RunBatch(Ok(questionRows), Ok(answerRows), questionRange, targetRange,
      prompt, labelBase, ai, writeReply).result)
  {
    var st := BatchLoop(questionRows, answerRows, questionRange, prompt, labelBase, ai);
    var errors := ErrorList(RunBatch(Ok(questionRows), Ok(answerRows), questionRange, targetRange,
      prompt, labelBase, ai, writeReply).result);
    assert st.errors <= errors by {
      RunBatchParts(questionRows, answerRows, questionRange, targetRange, prompt, labelBase, ai, writeReply);
    }
    PrefixKeeps(st.errors, errors, e);
  }

  lemma PrefixKeeps(xs: seq<string>, ys: seq<string>, e: string)
    requires xs <= ys && e in xs
    ensures e in ys
  {
    var i :| 0 <= i < |xs| && xs[i] == e;
    assert ys[i] == e;
  }

  /** A row the batch sends passes `generateBasicFeedback`'s own guard: its
      trimmed texts are not blank. */
  lemma AskedRowPassesGuard(questionRows: Grid, answerRows: Grid, j: nat)
    requires j < |questionRows|
    ensures var p := Pairs(questionRows, answerRows)[j];
      Asks(p) ==> HasQuestionAndAnswer(p.question, p.answer)
  {
    var p := Pairs(questionRows, answerRows)[j];
    if Asks(p) {
      TrimmedNotBlank(JoinComma(questionRows[j]));
      if j < |answerRows| {
        TrimmedNotBlank(JoinComma(answerRows[j]));
      }
    }
  }

  lemma TrimmedNotBlank(s: string)
    requires Trim(s) != ""
    ensures !IsBlank(Trim(s))
  {
    assert !IsWhitespace(Trim(s)[0]);
  }
}
