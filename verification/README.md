# Report helper: a Dafny model of the extension's core logic

This project models the deterministic core of a Chrome extension that helps
mentors process interview answers kept in a Google spreadsheet. It does three
things with a generative-text service:

- it refines typed answers;
- it writes feedback for question/answer pairs;
- it queues report work in the background.

The service calls, the spreadsheet REST calls and the Chrome storage and tab
APIs are not modelled as code. They become inputs:

- the replies of the text service form an oracle `nat -> AiReply`: reply `k`
  answers the `k`-th request of a batch;
- a spreadsheet read, write or append is one reply value;
- a storage slot is a value that may be absent, and an operation returns the
  slot's new content;
- the current time, the tab list, the page location and the document title
  are parameters.

Each pipeline returns a trace next to its result: the requests sent, the write
issued and the progress reported. This makes "no request", "no write" and
"which row went where" statable.

The modules follow the source files:

- `AnswerRefiner`: the answer-refinement batch.
- `FeedbackBatch`: the row loop the two feedback generators share.
- `FeedbackGenerator`: the newer feedback generator.
- `LegacyFeedbackGenerator`: the older feedback generator.
- `PromptTemplates`: prompt validation, truncation and assembly.
- `ResponseParser`: response validation and quality scoring.
- `SheetsIntegration`: report-level sheet operations.
- `ErrorHandler`: error typing and the retry policy.
- `WorkQueue`: the background storage manager.
- `ServiceWorker`: the work-item state machine.
- `ExtensionStorage`: the popup storage manager.
- `SpreadsheetUrl`: spreadsheet ids in URLs and the active-tab gate.
- `SheetDetector`: the content script's page reader.
- `MessageHandler`: the background message router.
- Support modules:
  - `Values` holds `Option`, `Result` and `Patch`;
  - `JsString` holds JavaScript `trim`, `includes`, `toLowerCase`,
    `toString` on a row, and number printing and parsing;
  - `SheetsApi` and `GeminiApi` hold the reply shapes;
  - `BatchResults` holds the batch result record.

Several behaviours of the code differ from what a reader might expect. The
model keeps each of them as written:

- **Refiner read failure.** A failed source read is reported with
  `errorCount` 0 next to one error message, not with an error count equal to
  the length of the error list.
- **Feedback read failures.** When both reads fail, the result carries two
  messages but an `errorCount` of 1.
- **Feedback write failure.** A failed write makes a feedback batch report
  `success: false`, even though its loop completed.
- **Dense refiner write.** The dense column the refiner writes puts `""` in
  every slot that no refined answer owns. Rows that were already refined, or
  whose request failed, are overwritten with blanks whenever a refined answer
  lies below them (`AnswerRefiner.RefinementBlanksOtherSlots`).
- **Older generator's progress rows.** The older generator drops the first
  row of each range as a header. It still reports data row `j` to the
  progress callback as `start + j`, where `start` is the range's own first
  row, which is the header row's number (`LegacyFeedbackGenerator.DataRowProgress`).
- **String errors.** A thrown string keeps its text and takes the given type,
  or the unknown type when none is given. The error-handler test at
  src/background/error-handler.test.ts:23-29 expects something else; the
  model follows the code.
- **Page detection.** The sheet-detector tests build a location without a
  hostname, so by the code such a page is never recognised. The model follows
  the code.

## Model

| member | source | states |
|---|---|---|
| AnswerRefiner.ExtractAnswerData | src/services/answer-refiner.ts:45-69 | A failed read is passed on with its error. A read without values gives no records. Otherwise there is one record per row, in order: its index is the row's position, its texts are cells 0 and 1 (or `""`), and it needs refinement exactly when the refined cell is whitespace only. |
| AnswerRefiner.FilterNeeding | src/services/answer-refiner.ts:199-201 | A record is kept exactly when it is in the data and needs refinement. |
| AnswerRefiner.NeedingFrom | src/services/answer-refiner.ts:199-201 | This reference definition works on the grid itself. It lists the positions whose second cell is blank, in strictly increasing order. |
| AnswerRefiner.NeedingFromComplete | src/services/answer-refiner.ts:199-201 | No row with a blank second cell is left out of the reference list. |
| AnswerRefiner.NeedingRowsExactly | src/services/answer-refiner.ts:66 | Row `i` is selected if and only if its second cell is blank after trimming. |
| AnswerRefiner.FilterPicksNeedingRows | src/services/answer-refiner.ts:59-69 | Mapping the rows to records and then filtering them gives the same list as picking the blank-second-cell rows in order. The pipeline and the reference definition agree. |
| AnswerRefiner.ItemsToRefine | src/services/answer-refiner.ts:199-201 | The items to refine are the records of exactly the blank-second-cell rows, in row order. |
| AnswerRefiner.ItemsIncreasing | src/services/answer-refiner.ts:199-201 | The items to refine come in strictly increasing row order. |
| AnswerRefiner.RefineRequestInstruction | src/services/answer-refiner.ts:90-96 | The request carries the answer text. Its instruction is the custom prompt when that is given and non-empty, and the built-in prompt otherwise, so the service never receives an empty instruction. |
| AnswerRefiner.RefineAnswerText | src/services/answer-refiner.ts:98-108 | The result is a success exactly when the reply is. On success the text is the reply's text. A failure reads "AI processing failed". |
| AnswerRefiner.RefineLoop | src/services/answer-refiner.ts:217-233 | There is one request per item, in item order, carrying the item's original answer and the resolved instruction. Every item ends up either refined or with an error, never both. |
| AnswerRefiner.RefinedListHas | src/services/answer-refiner.ts:223-227 | An item whose reply succeeds with non-empty text lands in the refined list with its own row and the reply's text. |
| AnswerRefiner.RefinedListSound | src/services/answer-refiner.ts:223-227 | Every refined answer comes from some item whose reply succeeded with non-empty text. |
| AnswerRefiner.RefinedListAvoids | src/services/answer-refiner.ts:223-227 | A row whose items all failed carries no refined answer. |
| AnswerRefiner.RefinedListIncreasing | src/services/answer-refiner.ts:217-227 | When the items are in increasing row order, so are the refined answers. |
| AnswerRefiner.LoopErrorsHas | src/services/answer-refiner.ts:228-231 | An item whose reply does not refine leaves the error `Row {rowIndex}: …`, with the failure's message or "Unknown error". |
| AnswerRefiner.MaxRowIndex | src/services/answer-refiner.ts:136 | The value is the largest row index among the answers: it bounds every answer and some answer reaches it. |
| AnswerRefiner.SlotText | src/services/answer-refiner.ts:138-139 | A slot holds the text of the first answer for that row, or `""` when no answer has that row. |
| AnswerRefiner.DenseColumn | src/services/answer-refiner.ts:133-140 | The written block has one single-cell row for every slot from 0 to the largest row index. |
| AnswerRefiner.DenseColumnPlacement | src/services/answer-refiner.ts:133-140 | When rows are distinct, every answer sits in its own row's slot, and every other slot is `""`. |
| AnswerRefiner.WriteRefinedAnswers | src/services/answer-refiner.ts:125-158 | An empty list issues no write and reports 0. Otherwise there is exactly one write, of the dense column to the target range. It reports the number of answers when the write succeeds, and the write's error when it fails. |
| AnswerRefiner.RefineBatch | src/services/answer-refiner.ts:179-254 | A failed read gives success false, all counts 0 and one error (the read's message, or "Failed to extract data"), with no request and no write. After a good read, the batch reports success and processes exactly the rows needing refinement, sending one request each. It writes if and only if something was refined. Its error list is absent exactly when the error count is 0, and otherwise has that length. |
| AnswerRefiner.ProcessBatchRefinement | src/services/answer-refiner.ts:169-254 | Every request carries the custom prompt when one is given and non-empty, and the built-in prompt otherwise. |
| AnswerRefiner.RefinementRequests | src/services/answer-refiner.ts:217-221 | Request `j` is for the `j`-th blank-second-cell row, in row order, and sends that row's first cell. |
| AnswerRefiner.RefinementCounts | src/services/answer-refiner.ts:248-253 | The success count is the number of replies that refine. The error count is the number of other replies, plus one when a write was made and failed. |
| AnswerRefiner.LoopWritesRefinedItem | src/services/answer-refiner.ts:224-241 | The refined text of item `j` is written at item `j`'s row slot. |
| AnswerRefiner.RefinementWritesRefinedRow | src/services/answer-refiner.ts:236-241 | A selected row whose reply refines is written, to the target range, at its own slot. |
| AnswerRefiner.LoopBlanksOtherSlots | src/services/answer-refiner.ts:136-140 | A slot that no refining item owns is `""` in the written column. |
| AnswerRefiner.RefinementBlanksOtherSlots | src/services/answer-refiner.ts:136-140 | In the write a batch makes, every slot without a refined answer is `""`. This covers rows that were skipped, rows already refined, and rows whose reply failed. |
| AnswerRefiner.RefinementReportsFailedRow | src/services/answer-refiner.ts:228-231 | A selected row whose reply does not refine is reported in the batch's errors under its row number. |
| AnswerRefiner.WriteFailureAddsOneError | src/services/answer-refiner.ts:243-245 | Compared with a successful write, a failed write leaves the requests, the write, and the processed and success counts unchanged. It adds exactly one error at the end, `Write failed: …`. |
| FeedbackBatch.RequireApiKey | src/services/feedback-generator/feedback-generator.ts:17-19 | A key is refused with "API key is required" exactly when it is empty after trimming. The older constructor at src/services/feedback-generator.ts:16-18 has the same guard. |
| FeedbackBatch.FeedbackFromReply | src/services/feedback-generator/feedback-generator.ts:44-61 | The result is a success exactly when the reply is. On success it carries the reply's text and its token count, or 0 when there is none. A failure carries the reply's message. |
| FeedbackBatch.ReplyError | src/services/feedback-generator/feedback-generator.ts:47-49 | A failed reply's message is "Feedback generation failed: " followed by the reply's text, or by "Unknown error" when the text is empty. |
| FeedbackBatch.CellText | src/services/feedback-generator/feedback-generator.ts:126-127 | A row's text is its cells joined with commas and then trimmed. It is `""` exactly when the row is missing or the joined text is whitespace only. |
| JsString.SplitJoinRoundTrip | src/services/feedback-generator/feedback-generator.ts:126 | For cells without commas, splitting the comma-joined row at its commas gives the cells back. |
| FeedbackBatch.Pairs | src/services/feedback-generator/feedback-generator.ts:125-127 | There is one pair per question row. Pair `i` holds row `i` of each range, and the answer range may be shorter or longer than the question range. |
| FeedbackBatch.StartRow | src/services/feedback-generator/feedback-generator.ts:132-136 | The start row is the value of the range's first run of digits, or 1 when the range has no digit. |
| FeedbackBatch.StartRowOfBuiltRange | src/services/feedback-generator/feedback-generator.ts:132-137 | For a range written as a column, a row number and a tail that does not begin with a digit, the start row is that row number again. |
| FeedbackBatch.LoopFeedbacks | src/services/feedback-generator/feedback-generator.ts:141-161 | There is one feedback per row. A row gets its reply's text when the row is sent and the reply succeeds, and `""` otherwise. |
| FeedbackBatch.FeedbackLoop | src/services/feedback-generator/feedback-generator.ts:125-162 | There is one feedback and one progress call per row. The success count is the number of rows that are sent and get a successful reply. The error count is the number of the other rows: those missing a text and those whose reply failed. The error list is as long as the error count, and one request is sent per row that has both texts. |
| FeedbackBatch.FeedbackLoopProgress | src/services/feedback-generator/feedback-generator.ts:130-139 | Row `j` is reported to the progress callback as `(j + 1, total, start + j)`. |
| FeedbackBatch.FeedbackLoopMissingRow | src/services/feedback-generator/feedback-generator.ts:141-146 | A row without a question or an answer gets `""` and a "Missing question or answer" error naming its label. |
| FeedbackBatch.FeedbackLoopAskedCall | src/services/feedback-generator/feedback-generator.ts:148-152 | A row with both texts sends the prompt for them, as request number "rows sent before it". |
| FeedbackBatch.FeedbackLoopAskedReply | src/services/feedback-generator/feedback-generator.ts:154-161 | That row's feedback is its reply's text. When the reply failed, the feedback is `""` and the reply's message is recorded as an error for the row. |
| FeedbackBatch.AskedRowPassesGuard | src/services/feedback-generator/feedback-generator.ts:141-152 | Any row the batch sends passes the question-and-answer guard of the single-feedback call. |
| FeedbackBatch.ReadErrors | src/services/feedback-generator/feedback-generator.ts:90-96 | There is one "Failed to read spreadsheet data: …" message per failed read, with the question read first. |
| FeedbackBatch.Column | src/services/feedback-generator/feedback-generator.ts:166 | The written block has one single-cell row per feedback, in order. |
| FeedbackBatch.LoopErrorsCount | src/services/feedback-generator/feedback-generator.ts:141-162 | Every row of the loop either succeeds or leaves exactly one error: the errors and the rows sent with a successful reply together number the rows. |
| FeedbackBatch.FailuresCount | src/services/feedback-generator/feedback-generator.ts:141-162 | The same count for every tail of the rows, by induction. |
| FeedbackBatch.RunBatch | src/services/feedback-generator/feedback-generator.ts:90-194 | A failed read gives counts 0/0/1 with the read messages. An empty range gives the no-data error. In both cases nothing is sent or written. Otherwise exactly one write goes to the target range, with one cell per question row. The success count is the number of rows sent with a successful reply. The error count is the number of the other rows, plus one for a failed write. The batch succeeds exactly when the write does. A write failure is the last error. |
| FeedbackBatch.RunBatchParts | src/services/feedback-generator/feedback-generator.ts:165-194 | A batch with rows reports the loop's progress, sends the loop's requests and writes the loop's feedbacks. Its error list starts with the loop's errors. It keeps the loop's success count, and its error count is the loop's plus one exactly when the write fails. |
| FeedbackBatch.BatchLoopProgress | src/services/feedback-generator/feedback-generator.ts:129-139 | Inside a batch, row `j` is reported as sheet row "first number in the question range, plus `j`". |
| FeedbackBatch.LoopErrorKept | src/services/feedback-generator/feedback-generator.ts:174-193 | Every per-row error survives into the batch result, whatever the write's outcome. |
| FeedbackGenerator.Requirements | src/services/feedback-generator/feedback-generator.ts:220-240 | A non-empty custom prompt appears under its heading in place of the built-in requirement block. Without one, the built-in block is used. |
| FeedbackGenerator.FeedbackPromptLayout | src/services/feedback-generator/feedback-generator.ts:215-242 | The prompt opens with the fixed introduction and carries the question and the answer verbatim at fixed offsets. It ends with the custom prompt when one is given, and with the built-in block otherwise. |
| FeedbackGenerator.BuildFeedbackPrompt | src/services/feedback-generator/feedback-generator.ts:210-242 | The prompt opens with the fixed introduction. The question and the answer sit verbatim at fixed offsets, and the requirement block ends the prompt after a blank line. |
| FeedbackGenerator.GenerateBasicFeedback | src/services/feedback-generator/feedback-generator.ts:24-61 | A blank question or answer is refused with "Question and answer are required", and no request is sent. Otherwise the built prompt is sent, and the result is a success exactly when the reply is. The result is the reply turned into feedback: on success the processed text with the token count, or 0 when there is none; on failure "Feedback generation failed: " followed by the reply's error, or by "Unknown error" when that is empty. |
| FeedbackGenerator.SheetRows | src/services/feedback-generator/feedback-generator.ts:106-107 | A read gives its values, `[]` when there are none, or its error. |
| FeedbackGenerator.GenerateBatchFeedbackAsWritten | src/services/feedback-generator/feedback-generator.ts:75-194 | If either read fails, the batch stops with error count 1, one message per failed read, no request and no write. The batch writes exactly when both ranges hold rows. The write goes to the target range, with one cell and one progress call per question row, and the batch succeeds exactly when the write does. |
| FeedbackGenerator.GenerateBatchFeedback | src/services/feedback-generator/feedback-generator.ts:75-194 | The corrected batch has the same read-failure, write and success behaviour as the code as written. Only the row labels in its errors differ. |
| FeedbackGenerator.AsWrittenLabelDisagreesWithProgress | src/services/feedback-generator/feedback-generator.ts:137-144 | As written, when the question range starts at a row `r` other than 2 and its first question is blank, that row is reported as row `r` but its error says "Row 2". |
| FeedbackGenerator.LabelsMatchProgress | src/services/feedback-generator/feedback-generator.ts:137-160 | When rows are labelled from the range's start row, every missing-row error and every failed-reply error names the row that progress reported. |
| FeedbackGenerator.BatchLabelsMatchProgress | src/services/feedback-generator/feedback-generator.ts:137-160 | In the corrected batch, every error names the same sheet row as the progress call for that row. |
| FeedbackGenerator.BatchRowIsBasicFeedback | src/services/feedback-generator/feedback-generator.ts:148-152 | The request the batch sends for a row is the one the single-feedback call sends for that row's trimmed texts, and the results agree. |
| LegacyFeedbackGenerator.AssembleLayout | src/services/feedback-generator.ts:214-263 | In either language the prompt opens with the request. It carries the question and the answer after their labels and closes with the requirement block. The labelled context line is there exactly when a non-empty context is given; otherwise nothing lies between the answer and the requirement block. |
| LegacyFeedbackGenerator.BasicPromptLayout | src/services/feedback-generator.ts:214-263 | The prompt has that layout, with the Korean text for `"ko"` and the English text for any other language. |
| LegacyFeedbackGenerator.BuildBasicFeedbackPrompt | src/services/feedback-generator.ts:214-263 | The prompt uses the Korean text for `"ko"` and the English text otherwise. It opens with the request and holds the question and the answer at their labels. It has the context line exactly when a non-empty context is given, and it ends with the requirement block. |
| LegacyFeedbackGenerator.GenerateBasicFeedback | src/services/feedback-generator.ts:22-51 | A blank question or answer is refused before any request. Otherwise exactly one feedback request is sent. It carries the built prompt for the question, answer, language and context, plus the caller's context. The result is the reply turned into feedback, so it is a success exactly when the reply is. |
| LegacyFeedbackGenerator.SentPromptLayout | src/services/feedback-generator.ts:31-40 | The prompt a single call sends opens with its language's request and carries the question and the answer after their labels. It has the context line exactly when a non-empty context is given, and it ends with the requirement block. |
| LegacyFeedbackGenerator.ReportRows | src/services/feedback-generator.ts:83-110 | Reading a range gives all rows but the first, or the reader's error behind its prefix. |
| LegacyFeedbackGenerator.GenerateBatchFeedback | src/services/feedback-generator.ts:75-198 | If either read fails, the batch stops with error count 1, one message per failed read, no request and no write. The batch writes exactly when both ranges hold data under their header rows. The write goes to the target range, with one cell and one progress call per question data row, and the batch succeeds exactly when the write does. |
| LegacyFeedbackGenerator.ReadFailureStopsBatch | src/services/feedback-generator.ts:93-107 | Either read failing ends the batch with success false and counts 0/0/1, with no request and no write. There is one message per failed read, carrying both prefixes. |
| LegacyFeedbackGenerator.HeaderOnlyIsNoData | src/services/feedback-generator.ts:109-120 | A range holding at most its header row gives the no-data error, with no request and no write. |
| LegacyFeedbackGenerator.DataRowsFollowHeader | src/services/feedback-generator.ts:109-130 | With data under both headers, one entry per data row is processed and written, and data row `j` pairs values row `j + 1` of both ranges. |
| LegacyFeedbackGenerator.DataRowProgress | src/services/feedback-generator.ts:133-142 | Data row `j` is reported as `start + j`, where `start` is the first number in the question range. |
| LegacyFeedbackGenerator.DataRowMissing | src/services/feedback-generator.ts:144-149 | A data row without a question or an answer gets `""` in the written column and the error "Row {2 + j}: Missing question or answer". |
| LegacyFeedbackGenerator.DataRowAsked | src/services/feedback-generator.ts:151-155 | A data row with both texts sends the prompt for them, as request number "rows sent before it". |
| LegacyFeedbackGenerator.BatchRowIsBasicFeedback | src/services/feedback-generator.ts:151-164 | The request the batch sends for a row is the Korean single-feedback request without context, and the results agree. |
| PromptTemplates.ValidateRefineOptions | src/services/prompt-templates.ts:87-99 | A request passes exactly when its text is not blank, its language is supported and its style is supported. Otherwise the first failing check's message is returned, in that order. |
| PromptTemplates.ValidateFeedbackOptions | src/services/prompt-templates.ts:101-113 | The same text and language checks apply, then the check for at least one focus area. The first failure is returned. |
| PromptTemplates.Prefix | src/services/prompt-templates.ts:304 | A negative end gives `""`, an end past the string gives the whole string, and any other end gives the first that many characters. |
| PromptTemplates.WordCutUnique | src/services/prompt-templates.ts:304-311 | The word-cut position is unique. |
| PromptTemplates.Truncate | src/services/prompt-templates.ts:299-312 | Text within the limit is kept. Longer text becomes a prefix cut at the word cut, followed by "...". The cut is at the last space before the limit when that space lies beyond 80% of the limit, and at the limit otherwise. The result is at most three characters over the limit. |
| PromptTemplates.NumberedFromSplit | src/services/prompt-templates.ts:138-143 | Numbering two runs of items is numbering the first run and then continuing the count over the second. |
| PromptTemplates.NumberedLine | src/services/prompt-templates.ts:138-143 | Item `i` appears as the line `{i + 1}. {item}`, right after the lines of the items before it. |
| PromptTemplates.CriteriaLinesSplit | src/services/prompt-templates.ts:204-209 | The criteria lines of two runs of entries are those of each run, concatenated. |
| PromptTemplates.CriteriaLine | src/services/prompt-templates.ts:204-209 | Entry `i` appears as the line `- key: value`, right after the earlier entries' lines. |
| PromptTemplates.RefineTextsWellFormed | src/services/prompt-templates.ts:115-183 | Both languages' refine texts start and end with non-whitespace. Their cost-optimised intro and rules are shorter than the detailed ones. |
| PromptTemplates.CreateRefinePrompt | src/services/prompt-templates.ts:29-60 | A request fails exactly when validation fails, and then with the validation message. |
| PromptTemplates.StyleGuidesDistinct | src/services/prompt-templates.ts:255-273 | In either language, each of the four styles has its own guide, so the guide in a prompt identifies the requested style. |
| PromptTemplates.RefineBodyLayout | src/services/prompt-templates.ts:123-146 | The prompt opens with the intro for the chosen length. Right after it come the steps for that length, the style label and the given style guide. Right after the style guide it holds the context line and then the rule block. It ends with the labelled text and the closing, and nothing else is in it. |
| PromptTemplates.RefineBodyTrimmed | src/services/prompt-templates.ts:147 | With well-formed fixed texts, the trim at the end changes nothing. |
| PromptTemplates.CostOptimizedRefineShorter | src/services/prompt-templates.ts:123-129 | For the same pieces, the cost-optimised prompt is strictly shorter than the full one. |
| PromptTemplates.TrimmedRefineLayout | src/services/prompt-templates.ts:145-147 | The trimmed prompt keeps the opening, the steps with the style label and guide, the context and rule blocks at their place, and the labelled text with the closing at the end. |
| PromptTemplates.TrimmedRefineShorter | src/services/prompt-templates.ts:147 | After trimming, the cost-optimised prompt is still strictly shorter. |
| PromptTemplates.RefinePromptLayout | src/services/prompt-templates.ts:29-60 | A valid request gives a prompt that opens with the intro for its length, followed by the steps for that length, the style label and the guide of the requested style. It ends with the (possibly truncated) text under its label, followed by the closing. It holds the context line exactly when a non-empty context is given, followed by the custom-rule block, right after the style guide. When cost-optimised it is strictly shorter than the same request's full prompt. |
| PromptTemplates.Adjacent | src/services/prompt-templates.ts:134-143 | Two adjacent occurrences form one occurrence of their concatenation. |
| PromptTemplates.CustomRuleInBlock | src/services/prompt-templates.ts:138-143 | Custom rule `i` is the line `{i + 1}. {rule}` of the rule block, after the heading. |
| PromptTemplates.AreaNames | src/services/prompt-templates.ts:17-27 | Each focus area gets its localised name, in order. |
| PromptTemplates.FeedbackTextsWellFormed | src/services/prompt-templates.ts:185-253 | Both languages' feedback texts start and end with non-whitespace. |
| PromptTemplates.CreateFeedbackPrompt | src/services/prompt-templates.ts:62-85 | A request fails exactly when validation fails, and then with the validation message. |
| PromptTemplates.FeedbackBodyLayout | src/services/prompt-templates.ts:185-216 | After the intro for the chosen length comes the focus-area block, unless cost-optimised. Then come the criteria block, the context line, and the labelled text with the closing. |
| PromptTemplates.FeedbackBodyTrimmed | src/services/prompt-templates.ts:217 | With well-formed fixed texts, the trim at the end changes nothing. |
| PromptTemplates.FeedbackPromptLayout | src/services/prompt-templates.ts:62-85 | A valid request gives a prompt that ends with the text under its label and the closing. It has the focus-area block right after the intro exactly when it is not cost-optimised. |
| PromptTemplates.FocusAreaInBlock | src/services/prompt-templates.ts:196-202 | Focus area `i` is listed by its localised name as the line `{i + 1}. {name}`. |
| PromptTemplates.CriterionInBlock | src/services/prompt-templates.ts:204-209 | Criteria entry `i` is a `- key: value` line of the criteria block. |
| PromptTemplates.InnerOccurrence | src/services/prompt-templates.ts:196-209 | An occurrence inside one part of the prompt is an occurrence in the prompt. |
| ResponseParser.BasicErrors | src/services/response-parser.ts:80-84 | Blank text gets only "Response is empty". Non-blank text whose trimmed length is under 3 gets only "Response is too short". Any other text gets nothing. |
| ResponseParser.CustomErrors | src/services/response-parser.ts:87-93 | A run of rules yields at most one message per rule. |
| ResponseParser.CustomErrorsSingle | src/services/response-parser.ts:88-91 | One rule contributes its message exactly when it rejects the text. |
| ResponseParser.CustomErrorsSplit | src/services/response-parser.ts:87-93 | The rules are applied independently and in order: the messages of two runs of rules are those of each run, concatenated. |
| ResponseParser.CustomErrorsEmpty | src/services/response-parser.ts:87-93 | There are no custom messages exactly when every rule accepts the text. |
| ResponseParser.ValidateText | src/services/response-parser.ts:73-99 | The built-in messages come first and the failing validators' messages follow. The text is valid exactly when there are none. |
| ResponseParser.ValidIff | src/services/response-parser.ts:80-98 | A text is valid exactly when its trimmed length is at least 3 and every custom validator accepts it. |
| ResponseParser.BasicQuality | src/services/response-parser.ts:106-128 | Blank text scores all zero. Otherwise the score is 80 for text longer than 10 characters and 30 for shorter text, and completeness is 50 unless the text is longer than 20. |
| ResponseParser.CalculateQuality | src/services/response-parser.ts:102-128 | The public quality call gives all zero metrics for blank text. Any other text gets a positive score: 80 when it is longer than 10 characters and 30 otherwise, shared by readability, coherence and accuracy. Completeness is 50 unless the text is longer than 20 characters. |
| ResponseParser.QualityBounds | src/services/response-parser.ts:102-128 | Every metric of the public quality call lies in 0..100, and a text scores 0 exactly when it is blank. |
| ResponseParser.ScoreMonotone | src/services/response-parser.ts:102-119 | Among non-blank texts, a longer text never gets a lower score from the public quality call. |
| ResponseParser.ExtractMetadata | src/services/response-parser.ts:58-71 | The token total is the reported total, or 0. The prompt and completion counts and the processing time pass through unchanged. |
| ResponseParser.ParseResponse | src/services/response-parser.ts:26-56 | Validation is skipped only when `validateStructure` is exactly false. The result is valid exactly when no errors are reported, and an empty error list is reported as absent. |
| ResponseParser.ParseAgreesWithValidate | src/services/response-parser.ts:40-44 | With validation on, validity and errors are exactly those of the text validation. |
| ResponseParser.BlankResponseInvalid | src/services/response-parser.ts:40-54 | A blank or missing text is never valid while validation is on. Its first error is "Response is empty" and its quality is all zero. |
| SheetsIntegration.ValidateSpreadsheetAccess | src/services/sheets-integration.ts:43-55 | Access succeeds exactly when the metadata request does, and then read and write are both allowed. A failure allows neither and carries the prefixed cause. |
| SheetsIntegration.ReadExistingReport | src/services/sheets-integration.ts:74-91 | A failed read carries "Failed to read existing report: " and the cause. An empty read gives no header and no rows. Otherwise the header followed by the rows is exactly the values read. |
| SheetsIntegration.AppendNewReport | src/services/sheets-integration.ts:108-130 | Exactly one row `[date, url, title, content]` is appended to the range. The updated-row count defaults to 0, and a failure carries the prefixed cause. |
| SheetsIntegration.ExistingKeys | src/services/sheets-integration.ts:154-156 | The keys are exactly those of the existing rows after the header. |
| SheetsIntegration.Conflicts | src/services/sheets-integration.ts:158-167 | No conflict is reported exactly when no new row's key is taken. |
| SheetsIntegration.ConflictsReportEachRow | src/services/sheets-integration.ts:158-167 | Row `i` is reported as "Row {i + 1}" exactly when its key is taken. |
| SheetsIntegration.ConflictsAfter | src/services/sheets-integration.ts:158-167 | A message collected from row `from` on never names an earlier row. |
| SheetsIntegration.ConflictsInOrder | src/services/sheets-integration.ts:158-167 | There is exactly one message per row whose key is taken, in row order. The `t`-th message names the `t`-th such row, so nothing is repeated or reordered. |
| SheetsIntegration.MessageNamesRow | src/services/sheets-integration.ts:161-165 | Messages for different row numbers differ. |
| SheetsIntegration.DigitsBeforeColon | src/services/sheets-integration.ts:162 | Two messages "Row {x}:…" and "Row {y}:…" that are equal have the same digits `x` and `y`. |
| SheetsIntegration.EnsureDataIntegrity | src/services/sheets-integration.ts:142-173 | Empty existing data is valid with no conflicts. Otherwise the result is valid exactly when no new row's key equals the key of an existing data row, and valid exactly when the conflict list is empty. |
| SheetsIntegration.IntegrityIgnoresHeader | src/services/sheets-integration.ts:155 | Replacing the existing header row changes nothing. |
| SheetsIntegration.IntegrityReportsRow | src/services/sheets-integration.ts:154-167 | A conflict is reported for new row `i` exactly when some existing data row has the same key. |
| SheetsIntegration.IntegrityConflictsInOrder | src/services/sheets-integration.ts:154-167 | The conflict list holds one message per new row whose key an existing data row has, in the order of the new rows. |
| SheetsIntegration.RowKeyCollision | src/services/sheets-integration.ts:154-160 | The string key takes `("a", "b-c")` for a duplicate of `("a-b", "c")`, an entry it does not repeat. |
| SheetsIntegration.EnsureDataIntegrityByEntry | src/services/sheets-integration.ts:152-153 | In the corrected check, a new row conflicts exactly when an existing data row has the same first and second cells. |
| SheetsIntegration.EntryConflicts | src/services/sheets-integration.ts:158-167 | With entries compared cell by cell, no conflict is collected exactly when no new row from `from` on repeats an existing data row. |
| SheetsIntegration.ByEntryReportsFewer | src/services/sheets-integration.ts:152-160 | The corrected check never reports a conflict that the string-key check misses. |
| SheetsIntegration.ByEntryAcceptsCollision | src/services/sheets-integration.ts:152-160 | On the colliding rows, the corrected check accepts the new row. |
| ErrorHandler.Categorize | src/background/error-handler.ts:67-84 | The first rule that the lower-cased message matches wins, in the order network/fetch, api/server, storage/quota, validation/invalid; with no match the type is unknown. Each type is stated with both directions. |
| ErrorHandler.ToLowerIdempotent | src/background/error-handler.ts:68 | Lower-casing a lower-cased message changes nothing. |
| ErrorHandler.CategorizeIgnoresCase | src/background/error-handler.ts:68 | Categorisation ignores the case of ASCII letters. |
| ErrorHandler.HandleError | src/background/error-handler.ts:22-43 | The result is never a success, and it is retryable exactly when its type is network or API. An `Error` keeps its message and takes the given type, or its category. A string keeps its text and takes the given type, or unknown. Anything else becomes "Unknown error occurred" with the unknown type, whatever type is given. |
| ErrorHandler.ShouldRetry | src/background/error-handler.ts:45-50 | A retry is allowed only for a retryable type with fewer than 3 attempts made. |
| ErrorHandler.RetryWindow | src/background/error-handler.ts:16-20 | A retryable type is retried on attempts 0, 1 and 2 and on no later attempt. Any other type is never retried. |
| ErrorHandler.RetryAgreesWithHandleError | src/background/error-handler.ts:37-50 | A typed error is retried exactly when the handler marks it retryable and attempts remain. |
| ErrorHandler.UserFriendlyMessageInjective | src/background/error-handler.ts:52-65 | Each type has its own user message. |
| WorkQueue.GetSettings | src/background/storage-manager.ts:11-19 | The result is the stored settings, or `{true, "markdown", 5000}` when nothing is stored. |
| WorkQueue.SaveSettings | src/background/storage-manager.ts:21-26 | The slot becomes the given settings, and the call reports success. |
| WorkQueue.SettingsRoundTrip | src/background/storage-manager.ts:13-25 | Saved settings are read back unchanged, whatever was stored before. |
| WorkQueue.GetWorkQueue | src/background/storage-manager.ts:36-46 | The result is the stored queue, or `[]`. |
| WorkQueue.AddToWorkQueue | src/background/storage-manager.ts:48-57 | The item is appended at the end and every existing item is kept in place. |
| WorkQueue.FindIndex | src/background/storage-manager.ts:75 | The result is the first position holding the id, or none when no item has it. |
| WorkQueue.Merge | src/background/storage-manager.ts:81-85 | Each field the update sets replaces the item's field, and each field it leaves out keeps the item's value. This holds for the id, type, status, payload, retry count, error and creation time. The update time is always now. |
| WorkQueue.UpdateWorkItem | src/background/storage-manager.ts:69-91 | An unknown id is reported as "Work item not found" and the slot is unchanged. Otherwise only the first item with the id is replaced, by its merge with the update, and the queue length and all other items are unchanged. |
| WorkQueue.UpdateKeepsPositions | src/background/storage-manager.ts:75-89 | An update that keeps the id leaves every id's first position where it was. |
| WorkQueue.FindIndexByIds | src/background/storage-manager.ts:75 | Two queues with the same ids at the same positions find every id at the same position. |
| WorkQueue.ActiveItems | src/background/storage-manager.ts:104-106 | The filtered queue is no longer than the queue and holds only active items of it. |
| WorkQueue.ActiveItemsSplit | src/background/storage-manager.ts:104-106 | Filtering preserves order: filtering two parts and joining them is filtering the whole. |
| WorkQueue.ActiveItemsKeep | src/background/storage-manager.ts:104-106 | Every active item is kept. |
| WorkQueue.ActiveItemsOfActive | src/background/storage-manager.ts:104-106 | A queue of active items only is kept whole. |
| WorkQueue.ClearCompletedWork | src/background/storage-manager.ts:101-112 | Only active items of the queue remain, and the call reports success. |
| WorkQueue.ClearKeepsExactlyActive | src/background/storage-manager.ts:104-106 | An item of the queue is kept if and only if it is neither completed nor failed. |
| WorkQueue.ClearIdempotent | src/background/storage-manager.ts:101-112 | Clearing twice gives the same queue as clearing once. |
| ServiceWorker.Initialize | src/background/service-worker-manager.ts:20-30 | Initialising reports success and makes the worker active. |
| ServiceWorker.Cleanup | src/background/service-worker-manager.ts:127-132 | Cleaning up makes the worker inactive. |
| ServiceWorker.LifeCycle | src/background/service-worker-manager.ts:44-46 | The worker is active after initialising and inactive after cleaning up, from any state and with any repeats. |
| ServiceWorker.FinalUpdate | src/background/service-worker-manager.ts:75-119 | The item becomes completed exactly when it is a report item whose pipeline succeeded. It returns to pending, with one more retry, exactly after a failure with fewer than 3 attempts. In every other case it is failed. The recorded error is the returned result's error once retries run out, the thrown message when the pipeline threw, and "Unknown work item type: …" for an unknown type. A completed or pending item keeps its error. The final status is never processing, and the type, payload and creation time are never touched. |
| ServiceWorker.ProcessWorkItem | src/background/service-worker-manager.ts:65-120 | The first queued item with the id is first marked processing and then gets the final status, stamped with the current time. An unknown id changes nothing. |
| ServiceWorker.ProcessWorkItemFrame | src/background/service-worker-manager.ts:68-111 | Processing an item changes only the first queued item with its id, and the queue keeps its length. |
| ServiceWorker.ProcessWorkItemAt | src/background/service-worker-manager.ts:65-120 | The first queued item with the id becomes that item marked as processing and then merged with the final update. |
| ServiceWorker.ProcessWorkItemIds | src/background/service-worker-manager.ts:68-111 | Processing an item keeps the queue's length and the id at every position. |
| ServiceWorker.ProcessWorkItemLength | src/background/service-worker-manager.ts:68-111 | Processing an item keeps the queue's length, and a stored queue stays stored. |
| ServiceWorker.PendingItems | src/background/service-worker-manager.ts:51-53 | The snapshot holds only items of the queue that are pending. |
| ServiceWorker.PendingItemsKeep | src/background/service-worker-manager.ts:51-53 | Every pending item of the queue is in the snapshot. |
| ServiceWorker.PendingItemsSplit | src/background/service-worker-manager.ts:51-53 | The pending items of two joined parts are those of each part, joined, so the snapshot keeps queue order. |
| ServiceWorker.PendingItemsAt | src/background/service-worker-manager.ts:51-53 | A pending item is the snapshot's entry numbered by the count of pending items queued before it. |
| ServiceWorker.PendingItemsDistinct | src/background/service-worker-manager.ts:51-53 | The snapshot of a queue with distinct ids has distinct ids. |
| ServiceWorker.ProcessItems | src/background/service-worker-manager.ts:55-57 | Processing the snapshot in order keeps the queue's length. |
| ServiceWorker.ProcessQueue | src/background/service-worker-manager.ts:48-63 | A run reports success and keeps the queue's length. |
| ServiceWorker.ProcessItemsAt | src/background/service-worker-manager.ts:55-57 | With distinct ids, the queued item that shares its id with the `m`-th processed item gets exactly that item's two updates, with the `m`-th outcome. Earlier and later items of the run leave it alone. |
| ServiceWorker.ProcessQueueItem | src/background/service-worker-manager.ts:48-59 | Take a queue with distinct ids. Each pending item, numbered `k` among the pending items, ends the run marked as processing and then merged with the final update for outcome `k`. Every item that was not pending is left as it was. |
| ServiceWorker.ProcessItemsFrame | src/background/service-worker-manager.ts:55-57 | A queued item whose id no processed item shares is left as it was. |
| ServiceWorker.ProcessQueueFrame | src/background/service-worker-manager.ts:50-57 | An item whose id no pending item shares comes out of a run unchanged. |
| ServiceWorker.ProcessWorkItemBounded | src/background/service-worker-manager.ts:94-111 | Processing an item keeps every retry count at 2 or below. |
| ServiceWorker.ProcessItemsBounded | src/background/service-worker-manager.ts:55-57 | Retry counts stay at 2 or below over a whole run. |
| ServiceWorker.ProcessQueueBounded | src/background/service-worker-manager.ts:48-63 | A run of the queue never lets a retry count exceed 2. |
| ServiceWorker.FailsOnThirdAttempt | src/background/service-worker-manager.ts:94-111 | A report item that keeps failing goes back to pending after its first and second failures, with retry counts 1 and 2. On the third failure it is failed with the pipeline's error. |
| ServiceWorker.OneRound | src/background/service-worker-manager.ts:50-57 | A run over a one-item pending queue processes exactly that item, with the first outcome. |
| ExtensionStorage.GetSettings | src/utils/storage.ts:61-75 | The result is the stored settings, or `{false, "markdown", 1000}`. |
| ExtensionStorage.SetSettings | src/utils/storage.ts:77-79 | The local slot becomes the given settings. |
| ExtensionStorage.GetUserPreferences | src/utils/storage.ts:67-86 | The result is the stored preferences, or `{"auto", "en"}`. |
| ExtensionStorage.SetUserPreferences | src/utils/storage.ts:88-90 | The synced slot becomes the given preferences. |
| ExtensionStorage.StorageRoundTrips | src/utils/storage.ts:72-90 | What is set is read back, whatever was stored before. The popup's default settings differ from the background's. |
| SpreadsheetUrl.FirstMatch | src/utils/storage.ts:27-28 | The result is the leftmost position from which the marker is followed by an id character, or none when there is no such position. |
| SpreadsheetUrl.IdRunEnd | src/utils/storage.ts:27 | The position is where the greedy run of id characters ends. |
| SpreadsheetUrl.ExtractSpreadsheetId | src/utils/storage.ts:26-30 | There is no id exactly when the marker is never followed by an id character. Otherwise the id is the greedy run of id characters after the leftmost such marker, and it is non-empty and made of id characters only. The copy at src/utils/storage/storage.ts:24-28 has the same pattern. |
| SpreadsheetUrl.ExtractAt | src/utils/storage.ts:26-30 | The first match, followed by a maximal run of id characters, gives that run as the id. |
| SpreadsheetUrl.ExtractFromSheetsUrl | src/utils/storage.ts:26-30 | The id of an editor URL `https://docs.google.com/spreadsheets/d/{id}{rest}` is read back whole. |
| SpreadsheetUrl.CurrentSpreadsheetId | src/utils/storage.ts:35-58 | There is no id without the tabs API, an active tab, a non-empty URL, or "docs.google.com/spreadsheets" in the URL. Otherwise the result is the id extracted from the URL. The copy at src/utils/storage/storage.ts:33-56 applies the same gate. |
| SpreadsheetUrl.CurrentIdOfSheetsUrl | src/utils/storage.ts:44-53 | An editor URL in the active tab passes the gate and yields its id. |
| SheetDetector.NameEnd | src/services/sheet-detector/sheet-detector.ts:17-18 | The result is the end of the shortest name from a given length on that the title pattern accepts, or none when no later end matches. |
| SheetDetector.ExtractSheetName | src/services/sheet-detector/sheet-detector.ts:16-20 | A title that the pattern does not match gives "Untitled Spreadsheet". A matching title gives its shortest captured name, trimmed. |
| SheetDetector.LazyMatchAt | src/services/sheet-detector/sheet-detector.ts:18 | The lazy match is unique. |
| SheetDetector.SeparatorBeforeDash | src/services/sheet-detector/sheet-detector.ts:18 | When the separator pattern `\s*-\s*` matches a text followed by " - ", that text is whitespace only. |
| SheetDetector.TitleMatchesAtName | src/services/sheet-detector/sheet-detector.ts:18 | In "{name} - Google Sheets", the pattern accepts the capture ending where the name ends. |
| SheetDetector.ShorterNameLeavesWhitespace | src/services/sheet-detector/sheet-detector.ts:18 | Any shorter capture the pattern accepts leaves only whitespace of the name behind, so trimming gives the same name. |
| SheetDetector.SuffixOfTail | src/services/sheet-detector/sheet-detector.ts:18 | A title whose tail ends in "Google Sheets" ends in it too. |
| SheetDetector.SheetNameOfTitle | src/services/sheet-detector/sheet-detector.ts:16-20 | The title "{name} - Google Sheets" gives the name, trimmed. |
| SheetDetector.DashesStayInName | src/services/sheet-detector/sheet-detector.ts:18-19 | "A - B - Google Sheets" gives "A - B": earlier dashes stay in the name. |
| SheetDetector.UntitledWithoutSuffix | src/services/sheet-detector/sheet-detector.ts:18-19 | A title that does not end in "Google Sheets" is untitled. |
| SheetDetector.GetSheetInfo | src/services/sheet-detector/sheet-detector.ts:35-41 | The info bundles the id from the page URL, the name from the title, and the URL unchanged. |
| SheetDetector.SendSheetInfo | src/services/sheet-detector/sheet-detector.ts:46-60 | The sheet information is sent, as "SHEET_INFO_DETECTED", exactly when runtime messaging is available. |
| SheetDetector.EditorPageInfo | src/services/sheet-detector/sheet-detector.ts:7-41 | An editor page is recognised, and its info carries the id from the URL and the name from a "{name} - Google Sheets" title. |
| MessageHandler.Forward | src/background/message-handler/message-handler.ts:39-72 | A known message is forwarded with its payload fields unchanged. An unknown one is not forwarded. |
| MessageHandler.Envelope | src/background/message-handler/message-handler.ts:46-86 | A resolved result is wrapped with its success flag as data. A thrown error gives failure with the error's message, or "Unknown error occurred". |
| MessageHandler.HandleMessage | src/background/message-handler/message-handler.ts:12-33 | An unknown type is answered with "ERROR_RESPONSE" and "Unknown message type", without calling the orchestrator. A known type is answered in its own response type with the orchestrator's outcome for the forwarded request. |
| MessageHandler.ResponseShape | src/background/message-handler/message-handler.ts:12-87 | Every response carries exactly one of data and error. It reports success only with a successful result, and it uses the error type only for an unknown message. |
| MessageHandler.PromptOnlyOnRefine | src/background/message-handler/message-handler.ts:39-72 | The custom prompt reaches the orchestrator only on the refine path. |

## Left out

- The HTTP, SDK and identity wrappers. The spreadsheet service, the text service and sign-in are represented only by the replies they give.
- The service factory's singletons: the services are passed in as inputs.
- The API orchestrator, which is glue. The message handler takes its outcome as a parameter, and the service worker takes the report pipeline's outcome as an oracle.
- The stub message handler at src/background/message-handler.ts is not part of this model.
- Event wiring, and the `keepAlive` timer of the service worker.
- The popup UI and its hooks.
- The content-script entry point.
- Wall-clock timing metadata. The `processingTime` of parse and feedback results, and every `Date.now()` stamp, are parameters or are dropped from the result records.
- Thrown exceptions and the catch branches that turn them into results. Examples are "Failed to extract data: …", "Unexpected error: …", "Batch feedback generation failed: …" and storage failures. Only explicit failure replies are modelled.
- The outer catch of `handleMessage` (src/background/message-handler/message-handler.ts:26-32). The inner handlers catch everything themselves, so it is unreachable.
- `ServiceWorker.FinalUpdate`: a thrown pipeline error is an outcome carrying the thrown message. The choice between an `Error`'s message and "Unknown error" happens outside the model.
- The types file src/types/index.ts is not part of this model. `WorkItem.payload` is reduced to the three strings a report request reads.
- `ResponseParser.ValidationRule`: a rule's name, description and severity are not modelled, because validation does not look at them.
- JavaScript's `/\s/` and `trim` whitespace is the ECMAScript WhiteSpace and LineTerminator set. String length counts Dafny characters, not UTF-16 code units, so texts outside the Basic Multilingual Plane are measured differently.
- `ErrorHandler.Categorize`: lower-casing covers ASCII letters only, where `toLowerCase` also folds other scripts.
- `PromptTemplates.Truncate`: the comparison with `0.8 · maxLength` is written in integers as `5 · index > 4 · maxLength`. Floating-point rounding is not modelled.
- `PromptTemplates.CreateRefinePrompt`: absent custom rules are modelled as an empty list. Language and style are strings checked against the supported lists; other value types are not modelled.
- `FeedbackBatch.FeedbackLoop`: the progress trace is what an installed `onProgress` callback would receive. Without a callback the source reports nothing, and the trace has no effect on the result.
- Spreadsheet cells are strings, and a missing cell prints as `undefined` in a duplicate key. Non-string cell values are not modelled.
- `WorkQueue.Merge`: an `updatedAt` field in an update is not modelled, because the merge overwrites it with the current time anyway.

## Findings

| source | as written | input that shows it | evidently intended | confidence | as-written member | corrected member |
|---|---|---|---|---|---|---|
| src/services/feedback-generator/feedback-generator.ts:137-160 | Row errors are labelled `i + 2`, while the progress callback reports the same row as `start + i`, with `start` the first number in the question range. | A question range "E5:E9" whose first question is blank: progress reports row 5, and the error says "Row 2". | An error names the sheet row that the progress callback reports for that row. | medium, not executed | FeedbackGenerator.GenerateBatchFeedbackAsWritten, FeedbackGenerator.AsWrittenLabelDisagreesWithProgress | FeedbackGenerator.GenerateBatchFeedback, FeedbackGenerator.BatchLabelsMatchProgress |
| src/services/sheets-integration.ts:154-160 | Rows are compared by the joined string `${row[0]}-${row[1]}`. | Existing data row `["a-b", "c"]` and new row `["a", "b-c"]`: both keys are "a-b-c", so the new row is reported as a duplicate. | A row is a duplicate when its date and its URL are both equal to those of an existing row, as the comment at line 153 says. | low, not executed | SheetsIntegration.EnsureDataIntegrity, SheetsIntegration.RowKeyCollision | SheetsIntegration.EnsureDataIntegrityByEntry, SheetsIntegration.ByEntryAcceptsCollision |
