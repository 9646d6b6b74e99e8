/** The answer-refinement batch: read a two-column range (original answer,
    refined answer), send every row whose refined cell is blank to the
    text-generation service, and write the refined texts back as one dense
    column. Reads, writes and AI replies are inputs. */
module AnswerRefiner {
  import opened Values
  import opened JsString
  import opened SheetsApi
  import opened GeminiApi
  import opened BatchResults

  /** The built-in refinement instruction sent when no custom prompt is given. */
  const DefaultPrompt: string :=
    "주어진 텍스트는 학생의 모의 면접 답변을 멘토가 타이핑한 메모입니다. 다음 지침에 따라 텍스트를 수정해 주세요. 그리고 답변은 수정한 텍스트 외의 다른 내용은 절대 포함하지 마세요. : \n"
    + "\n"
    + "1. 표현 및 문장 유지: \n"
    + "  * 학생의 원래 표현과 문장 구조는 최대한 유지해 주세요. \n"
    + "  * 내용의 의미가 바뀌지 않는 선에서 띄어쓰기, 오타, 아주 어색한 비문만 교정해 주세요. \n"
    + "  * 단, 언디파인드(undefined), 자스(javascript), 타스(typescript), 바(var), 렛(let), 콘스트(const) 등의 기술 용어만 영문으로 수정해주세요.\n"
    + "  * 기술 용어 영문으로 수정 시 텍스트만 수정하고, **별도 기호는 넣지 마세요.**\n"
    + "2. 어미 변경: 꼬리 질문을 제외한 모든 '했다', '했습니다' 등의 서술어를 '~함.' 형태로 변경해 주세요. (예: \"발표를 했다\" → \"발표를 했음.\")\n"
    + "3. 꼬리 질문 처리 (필요한 경우에만 적용):\n"
    + "  * 만약 '- '로 시작하는 문장이 있다면, 이는 멘토의 꼬리 질문입니다.\n"
    + "  * 꼬리 질문은 실제 면접관이 묻는 것처럼 자연스럽고 완성된 문장으로 수정해 주세요. (예: \"- ux개선 어던부분?\" → \"- UX 개선을 했다면 어떤 부분을 하셨나요?\")\n"
    + "  * 꼬리 질문 이전에 **정확히 한 줄의 공백**을 두고 배치해 주세요.\n"
    + "  * **주의: 주어진 텍스트에 꼬리 질문이 없다면, 어떠한 질문도 추가하거나 생성하지 마세요.**\n"
    + "\n"
    + "이 지침을 철저히 따라 텍스트를 수정해 주시기 바랍니다."

  /** One source row as the refiner sees it. */
  datatype AnswerData = AnswerData(
    originalAnswer: string,
    refinedAnswer: string,
    needsRefinement: bool,
    rowIndex: nat)

  /** `row[k] || ""`: a missing cell reads as the empty string. */
  function CellOr(row: seq<string>, k: nat): string {
    if k < |row| then row[k] else ""
  }

  function RowRecord(row: seq<string>, index: nat): AnswerData {
    var refined := CellOr(row, 1);
    AnswerData(CellOr(row, 0), refined, IsBlank(refined), index)
  }

  /** The records of `grid[from..]`, each keeping its position in `grid`. */
  function RecordsFrom(grid: Grid, from: nat): (data: seq<AnswerData>)
    requires from <= |grid|
    ensures |data| == |grid| - from
  {
    seq(|grid| - from, i requires 0 <= i < |grid| - from => RowRecord(grid[from + i], from + i))
  }

  /** `extractAnswerData`: one record per source row, in order. */
  function ExtractAnswerData(read: ReadReply): (r: Result<seq<AnswerData>>)
    ensures read.ReadFailed? ==> r == Err(read.error)
    ensures read.ReadOk? ==> r.Ok?
    ensures read.ReadOk? && read.values.None? ==> r.value == []
    ensures read.ReadOk? && read.values.Some? ==>
      && |r.value| == |read.values.value|
      && forall i | 0 <= i < |r.value| ::
        && r.value[i].rowIndex == i
        && r.value[i].originalAnswer == CellOr(read.values.value[i], 0)
        && r.value[i].refinedAnswer == CellOr(read.values.value[i], 1)
        && (r.value[i].needsRefinement <==> AllWhitespace(r.value[i].refinedAnswer))
  {
    match read
    case ReadFailed(e) => Err(e)
    case ReadOk(None) => Ok([])
    case ReadOk(Some(values)) => Ok(RecordsFrom(values, 0))
  }

  predicate IncreasingRows(d: seq<AnswerData>) {
    forall j, k | 0 <= j < k < |d| :: d[j].rowIndex < d[k].rowIndex
  }

  /** `data.filter(item => item.needsRefinement)`. */
  function FilterNeeding(data: seq<AnswerData>): (r: seq<AnswerData>)
    ensures forall x :: x in r <==> x in data && x.needsRefinement
    ensures |r| <= |data|
  {
    if |data| == 0 then []
    else if data[0].needsRefinement then [data[0]] + FilterNeeding(data[1..])
    else FilterNeeding(data[1..])
  }

  /** Grid positions, from `from` on, whose second cell is blank: the rows a
      batch must refine, stated on the grid itself. */
  function NeedingFrom(grid: Grid, from: nat): (idx: seq<nat>)
    requires from <= |grid|
    ensures forall j | 0 <= j < |idx| :: from <= idx[j] < |grid| && AllWhitespace(CellOr(grid[idx[j]], 1))
    ensures forall j, k | 0 <= j < k < |idx| :: idx[j] < idx[k]
    decreases |grid| - from
  {
    if from == |grid| then []
    else if IsBlank(CellOr(grid[from], 1)) then [from] + NeedingFrom(grid, from + 1)
    else NeedingFrom(grid, from + 1)
  }

  function NeedingRows(grid: Grid): seq<nat> {
    NeedingFrom(grid, 0)
  }

  /** No row with a blank second cell is missed. */
  lemma {:induction false} NeedingFromComplete(grid: Grid, from: nat, i: nat)
    requires from <= i < |grid| && IsBlank(CellOr(grid[i], 1))
    ensures i in NeedingFrom(grid, from)
    decreases |grid| - from
  {
    if from < i {
      NeedingFromComplete(grid, from + 1, i);
    }
  }

  /** A row is selected exactly when its second cell is blank. */
  lemma NeedingRowsExactly(grid: Grid, i: nat)
    requires i < |grid|
    ensures i in NeedingRows(grid) <==> IsBlank(CellOr(grid[i], 1))
  {
    if IsBlank(CellOr(grid[i], 1)) {
      NeedingFromComplete(grid, 0, i);
    }
  }

  /** The rows a successful read hands to the batch. */
  function SourceGrid(read: ReadReply): Grid
    requires read.ReadOk?
  {
    read.values.GetOr([])
  }

  /** The records of the grid rows listed in `idx`. */
  function PickRecords(grid: Grid, idx: seq<nat>): (data: seq<AnswerData>)
    requires forall j | 0 <= j < |idx| :: idx[j] < |grid|
    ensures |data| == |idx|
  {
    seq(|idx|, j requires 0 <= j < |idx| => RowRecord(grid[idx[j]], idx[j]))
  }

  lemma RecordsFromTail(grid: Grid, from: nat)
    requires from < |grid|
    ensures RecordsFrom(grid, from)[0] == RowRecord(grid[from], from)
    ensures RecordsFrom(grid, from)[1..] == RecordsFrom(grid, from + 1)
  {
  }

  lemma PickCons(grid: Grid, i: nat, idx: seq<nat>)
    requires i < |grid| && forall j | 0 <= j < |idx| :: idx[j] < |grid|
    ensures PickRecords(grid, [i] + idx) == [RowRecord(grid[i], i)] + PickRecords(grid, idx)
  {
    var l := PickRecords(grid, [i] + idx);
    var r := [RowRecord(grid[i], i)] + PickRecords(grid, idx);
    forall j | 0 <= j < |l| ensures l[j] == r[j] {
      if j > 0 {
        assert ([i] + idx)[j] == idx[j - 1];
      }
    }
  }

  /** Filtering the records is the same as picking the blank-second-cell rows. */
  lemma {:induction false} FilterPicksNeedingRows(grid: Grid, from: nat)
    requires from <= |grid|
    ensures FilterNeeding(RecordsFrom(grid, from)) == PickRecords(grid, NeedingFrom(grid, from))
    decreases |grid| - from
  {
    if from < |grid| {
      var data := RecordsFrom(grid, from);
      RecordsFromTail(grid, from);
      FilterPicksNeedingRows(grid, from + 1);
      var idx' := NeedingFrom(grid, from + 1);
      if data[0].needsRefinement {
        assert FilterNeeding(data) == [data[0]] + FilterNeeding(data[1..]);
        assert NeedingFrom(grid, from) == [from] + idx';
        PickCons(grid, from, idx');
      } else {
        assert FilterNeeding(data) == FilterNeeding(data[1..]);
        assert NeedingFrom(grid, from) == idx';
      }
    }
  }

  /** `customPrompt || this.DEFAULT_PROMPT`. */
  function RefinePrompt(customPrompt: Option<string>): string {
    if customPrompt.Some? && customPrompt.value != "" then customPrompt.value else DefaultPrompt
  }

  /** The `processText` request `refineAnswerText` issues for `text`. */
  function RefineRequest(text: string, customPrompt: Option<string>): AiRequest {
    AiRequest(Refine, text, Some(RefinePrompt(customPrompt)))
  }

  /** The instruction sent is the custom prompt when one is given and non-empty,
      the built-in one otherwise; the service never receives an empty instruction. */
  lemma RefineRequestInstruction(text: string, customPrompt: Option<string>)
    ensures RefineRequest(text, customPrompt).text == text
    ensures customPrompt.Some? && customPrompt.value != "" ==>
      RefineRequest(text, customPrompt).context == customPrompt
    ensures customPrompt.None? || customPrompt.value == "" ==>
      RefineRequest(text, customPrompt).context == Some(DefaultPrompt)
    ensures RefineRequest(text, customPrompt).context.Some?
    ensures RefineRequest(text, customPrompt).context.value != ""
  {
    assert |DefaultPrompt| > 0;
  }

  datatype RefinementResult = Refined(refinedText: string) | RefineFailed(error: string)

  /** `refineAnswerText`, given the service's reply to its request. */
  function RefineAnswerText(reply: AiReply): (r: RefinementResult)
    ensures r.Refined? <==> reply.success
    ensures r.Refined? ==> r.refinedText == reply.processedText
    ensures r.RefineFailed? ==> r.error == "AI processing failed"
  {
    if reply.success then Refined(reply.processedText) else RefineFailed("AI processing failed")
  }

  /** A reply that gives the batch a refined answer: success with non-empty text. */
  predicate ReplyRefines(reply: AiReply) {
    reply.success && reply.processedText != ""
  }

  /** `Row ${rowIndex}: ${refineResult.error || "Unknown error"}`. */
  function RowError(rowIndex: nat, result: RefinementResult): string {
    "Row " + NatToString(rowIndex) + ": "
      + (if result.RefineFailed? && result.error != "" then result.error else "Unknown error")
  }

  datatype RefinedAnswer = RefinedAnswer(rowIndex: nat, refinedAnswer: string)

  /** What the refinement loop has accumulated. */
  datatype RefineLoopState = RefineLoopState(
    refined: seq<RefinedAnswer>,
    errors: seq<string>,
    calls: seq<AiRequest>)

  /** Number of replies among calls `from .. from + n - 1` that refine. */
  function RefiningReplies(ai: AiOracle, from: nat, n: nat): (c: nat)
    ensures c <= n
    decreases n
  {
    if n == 0 then 0
    else (if ReplyRefines(ai(from)) then 1 else 0) + RefiningReplies(ai, from + 1, n - 1)
  }

  /** The loop's `refinedAnswers`: item `j` gets reply `ai(k + j)` and is kept
      with its text when `refineResult.success && refineResult.refinedText`,
      that is, when the reply refines. */
  function RefinedList(items: seq<AnswerData>, ai: AiOracle, k: nat): (r: seq<RefinedAnswer>)
    ensures |r| == RefiningReplies(ai, k, |items|)
    decreases |items|
  {
    if |items| == 0 then []
    else
      (if ReplyRefines(ai(k)) then [RefinedAnswer(items[0].rowIndex, ai(k).processedText)] else [])
        + RefinedList(items[1..], ai, k + 1)
  }

  /** The loop's `errors`: one row error for every item whose reply does not
      refine. */
  function LoopErrors(items: seq<AnswerData>, ai: AiOracle, k: nat): (e: seq<string>)
    ensures |e| == |items| - RefiningReplies(ai, k, |items|)
    decreases |items|
  {
    if |items| == 0 then []
    else
      (if ReplyRefines(ai(k)) then [] else [RowError(items[0].rowIndex, RefineAnswerText(ai(k)))])
        + LoopErrors(items[1..], ai, k + 1)
  }

  /** The `for (const item of itemsToRefine)` loop: one `processText` request
      per item with the resolved instruction `customPrompt || DEFAULT_PROMPT`,
      and the two lists it accumulates. */
  function RefineLoop(items: seq<AnswerData>, instruction: string, ai: AiOracle, k: nat)
    : (st: RefineLoopState)
    ensures |st.calls| == |items|
    ensures forall j | 0 <= j < |items| ::
      st.calls[j] == AiRequest(Refine, items[j].originalAnswer, Some(instruction))
    ensures |st.refined| == RefiningReplies(ai, k, |items|)
    ensures |st.refined| + |st.errors| == |items|
  {
    RefineLoopState(
      RefinedList(items, ai, k),
      LoopErrors(items, ai, k),
      seq(|items|, j requires 0 <= j < |items| => AiRequest(Refine, items[j].originalAnswer, Some(instruction))))
  }

  /** Item `j` whose reply refines lands in the refined list. */
  lemma {:induction false} RefinedListHas(items: seq<AnswerData>, ai: AiOracle, k: nat, j: nat)
    requires j < |items| && ReplyRefines(ai(k + j))
    ensures RefinedAnswer(items[j].rowIndex, ai(k + j).processedText) in RefinedList(items, ai, k)
    decreases j
  {
    if j > 0 {
      RefinedListHas(items[1..], ai, k + 1, j - 1);
      assert items[1..][j - 1] == items[j];
      assert k + 1 + (j - 1) == k + j;
    }
  }

  /** Item `j` whose reply does not refine leaves an error naming its row. */
  lemma {:induction false} LoopErrorsHas(items: seq<AnswerData>, ai: AiOracle, k: nat, j: nat)
    requires j < |items| && !ReplyRefines(ai(k + j))
    ensures RowError(items[j].rowIndex, RefineAnswerText(ai(k + j))) in LoopErrors(items, ai, k)
    decreases j
  {
    if j > 0 {
      LoopErrorsHas(items[1..], ai, k + 1, j - 1);
      assert items[1..][j - 1] == items[j];
      assert k + 1 + (j - 1) == k + j;
    }
  }

  /** `x` is what item `item` contributes to the refined list given `reply`. */
  predicate RefinedFrom(item: AnswerData, reply: AiReply, x: RefinedAnswer) {
    ReplyRefines(reply) && x == RefinedAnswer(item.rowIndex, reply.processedText)
  }

  /** Every refined answer comes from some item whose reply refined. */
  lemma {:induction false} RefinedListSound(items: seq<AnswerData>, ai: AiOracle, k: nat, x: RefinedAnswer)
    requires x in RefinedList(items, ai, k)
    ensures exists j | 0 <= j < |items| :: RefinedFrom(items[j], ai(k + j), x)
    decreases |items|
  {
    var head := if ReplyRefines(ai(k)) then [RefinedAnswer(items[0].rowIndex, ai(k).processedText)] else [];
    var rest := RefinedList(items[1..], ai, k + 1);
    assert RefinedList(items, ai, k) == head + rest;
    if x in head {
      assert RefinedFrom(items[0], ai(k + 0), x);
    } else {
      RefinedListSound(items[1..], ai, k + 1, x);
      var j :| 0 <= j < |items[1..]| && RefinedFrom(items[1..][j], ai(k + 1 + j), x);
      assert items[1..][j] == items[j + 1];
      assert k + 1 + j == k + (j + 1);
      assert RefinedFrom(items[j + 1], ai(k + (j + 1)), x);
    }
  }

  predicate IncreasingRefined(r: seq<RefinedAnswer>) {
    forall a, b | 0 <= a < b < |r| :: r[a].rowIndex < r[b].rowIndex
  }

  /** Refined answers only carry rows that some item carries: when every item's
      row is above `b`, so is every refined answer's. */
  lemma {:induction false} RefinedListRowsAbove(items: seq<AnswerData>, ai: AiOracle, k: nat, b: int)
    requires forall j | 0 <= j < |items| :: items[j].rowIndex > b
    ensures forall x | x in RefinedList(items, ai, k) :: x.rowIndex > b
    decreases |items|
  {
    if |items| > 0 {
      RefinedListRowsAbove(items[1..], ai, k + 1, b);
    }
  }

  /** Items in increasing row order give refined answers in increasing row order. */
  lemma {:induction false} RefinedListIncreasing(items: seq<AnswerData>, ai: AiOracle, k: nat)
    requires IncreasingRows(items)
    ensures IncreasingRefined(RefinedList(items, ai, k))
    decreases |items|
  {
    if |items| > 0 {
      var rest := RefinedList(items[1..], ai, k + 1);
      RefinedListIncreasing(items[1..], ai, k + 1);
      RefinedListRowsAbove(items[1..], ai, k + 1, items[0].rowIndex);
      var r := RefinedList(items, ai, k);
      if ReplyRefines(ai(k)) {
        assert r == [RefinedAnswer(items[0].rowIndex, ai(k).processedText)] + rest;
        forall a, b | 0 <= a < b < |r| ensures r[a].rowIndex < r[b].rowIndex {
          assert r[b] == rest[b - 1] && rest[b - 1] in rest;
          if a > 0 {
            assert r[a] == rest[a - 1];
          }
        }
      } else {
        assert r == [] + rest;
        assert r == rest;
      }
    }
  }

  /** `Math.max(...answers.map(a => a.rowIndex))`. */
  function MaxRowIndex(answers: seq<RefinedAnswer>): (m: nat)
    requires |answers| > 0
    ensures forall a | a in answers :: a.rowIndex <= m
    ensures exists a | a in answers :: a.rowIndex == m
  {
    if |answers| == 1 then answers[0].rowIndex
    else
      var rest := MaxRowIndex(answers[1..]);
      assert forall a | a in answers[1..] :: a in answers;
      if answers[0].rowIndex >= rest then answers[0].rowIndex else rest
  }

  /** `answers.find(a => a.rowIndex === i)?.refinedAnswer || ""`. */
  function SlotText(answers: seq<RefinedAnswer>, i: nat): (t: string)
    ensures (forall a | a in answers :: a.rowIndex != i) ==> t == ""
    ensures forall j | 0 <= j < |answers| && answers[j].rowIndex == i
      && (forall l | 0 <= l < j :: answers[l].rowIndex != i) :: t == answers[j].refinedAnswer
    decreases |answers|
  {
    if |answers| == 0 then ""
    else if answers[0].rowIndex == i then answers[0].refinedAnswer
    else
      var t := SlotText(answers[1..], i);
      SlotTextStep(answers, i, t);
      t
  }

  /** Behind a first answer of another row, the slot text is the rest's. */
  lemma SlotTextStep(answers: seq<RefinedAnswer>, i: nat, t: string)
    requires |answers| > 0 && answers[0].rowIndex != i
    requires (forall a | a in answers[1..] :: a.rowIndex != i) ==> t == ""
    requires forall j | 0 <= j < |answers[1..]| && answers[1..][j].rowIndex == i
      && (forall l | 0 <= l < j :: answers[1..][l].rowIndex != i) :: t == answers[1..][j].refinedAnswer
    ensures (forall a | a in answers :: a.rowIndex != i) ==> t == ""
    ensures forall j | 0 <= j < |answers| && answers[j].rowIndex == i
      && (forall l | 0 <= l < j :: answers[l].rowIndex != i) :: t == answers[j].refinedAnswer
  {
    if forall a | a in answers :: a.rowIndex != i {
      assert forall a | a in answers[1..] :: a in answers;
    }
    forall j | 0 <= j < |answers| && answers[j].rowIndex == i
      && (forall l | 0 <= l < j :: answers[l].rowIndex != i)
      ensures t == answers[j].refinedAnswer
    {
      assert j > 0;
      assert answers[1..][j - 1] == answers[j];
      forall l | 0 <= l < j - 1 ensures answers[1..][l].rowIndex != i {
        assert answers[1..][l] == answers[l + 1];
      }
    }
  }

  /** The one-column block `writeRefinedAnswers` sends: slot `i` holds the
      refined answer of row `i`, or `""` when that row has none. */
  function DenseColumn(answers: seq<RefinedAnswer>): (values: Grid)
    requires |answers| > 0
    ensures |values| == MaxRowIndex(answers) + 1
    ensures forall i | 0 <= i < |values| :: |values[i]| == 1
  {
    seq(MaxRowIndex(answers) + 1, i requires 0 <= i => [SlotText(answers, i)])
  }

  predicate DistinctRows(answers: seq<RefinedAnswer>) {
    forall a, b | 0 <= a < b < |answers| :: answers[a].rowIndex != answers[b].rowIndex
  }

  /** With distinct rows, every answer sits in its own row's slot and every
      other slot is blank. */
  lemma DenseColumnPlacement(answers: seq<RefinedAnswer>, i: nat)
    requires |answers| > 0 && DistinctRows(answers) && i <= MaxRowIndex(answers)
    ensures forall j | 0 <= j < |answers| && answers[j].rowIndex == i ::
      DenseColumn(answers)[i] == [answers[j].refinedAnswer]
    ensures (forall a | a in answers :: a.rowIndex != i) ==> DenseColumn(answers)[i] == [""]
  {
  }

  datatype WriteResult = Written(updatedCount: nat) | WriteError(error: string)

  /** The `updateRange` call `writeRefinedAnswers` makes (none for an empty
      list) and the result it reports, given the service's reply. */
  datatype WriteAttempt = WriteAttempt(call: Option<WriteCall>, result: WriteResult)

  function WriteRefinedAnswers(targetRange: string, answers: seq<RefinedAnswer>, reply: WriteReply)
    : (w: WriteAttempt)
    ensures w.call.None? <==> |answers| == 0
    ensures |answers| == 0 ==> w.result == Written(0)
    ensures w.call.Some? ==>
      w.call.value.range == targetRange && w.call.value.values == DenseColumn(answers)
    ensures |answers| > 0 && reply.WriteOk? ==> w.result == Written(|answers|)
    ensures |answers| > 0 && reply.WriteFailed? ==> w.result == WriteError(reply.error)
  {
    if |answers| == 0 then WriteAttempt(None, Written(0))
    else
      var call := WriteCall(targetRange, DenseColumn(answers));
      match reply
      case WriteOk => WriteAttempt(Some(call), Written(|answers|))
      case WriteFailed(e) => WriteAttempt(Some(call), WriteError(e))
  }

  /** One `processBatchRefinement`: the result, the `processText` requests in
      order, and the `updateRange` call if one was made. */
  datatype RefinementRun = RefinementRun(result: BatchResult, aiCalls: seq<AiRequest>, write: Option<WriteCall>)

  /** The rows to refine, as the pipeline computes them. */
  function ItemsToRefine(grid: Grid): (items: seq<AnswerData>)
    ensures items == PickRecords(grid, NeedingRows(grid))
  {
    FilterPicksNeedingRows(grid, 0);
    FilterNeeding(RecordsFrom(grid, 0))
  }

  /** `processBatchRefinement` once the instruction `customPrompt ||
      DEFAULT_PROMPT` is resolved, given the source read, the AI replies and
      the reply to the write. */
  function RefineBatch(
    source: ReadReply, targetRange: string, instruction: string,
    ai: AiOracle, writeReply: WriteReply): (run: RefinementRun)
    ensures source.ReadFailed? ==> run == RefinementRun(
      BatchResult(false, 0, 0, 0, Some([if source.error != "" then source.error else "Failed to extract data"])), [], None)
    ensures source.ReadOk? ==> run.result.success
    ensures source.ReadOk? ==> run.result.processedCount == |NeedingRows(SourceGrid(source))|
    ensures |run.aiCalls| == run.result.processedCount
    ensures run.write.Some? <==> run.result.successCount > 0
    ensures source.ReadOk? ==> (run.result.errors.None? <==> run.result.errorCount == 0)
    ensures source.ReadOk? && run.result.errors.Some? ==> |run.result.errors.value| == run.result.errorCount
  {
    match ExtractAnswerData(source)
    case Err(e) =>
      RefinementRun(BatchResult(false, 0, 0, 0, Some([if e != "" then e else "Failed to extract data"])), [], None)
    case Ok(data) =>
      var items := ItemsToRefine(SourceGrid(source));
      if |data| == 0 || |items| == 0 then RefinementRun(NothingToDo, [], None)
      else
        var st := RefineLoop(items, instruction, ai, 0);
        var w := WriteRefinedAnswers(targetRange, st.refined, writeReply);
        var errors := st.errors + (if w.result.WriteError? then ["Write failed: " + w.result.error] else []);
        RefinementRun(
          BatchResult(true, |items|, |st.refined|, |errors|, ErrorsOrUndefined(errors)),
          st.calls, w.call)
  }

  /** `processBatchRefinement`: every request carries the custom prompt when
      one is given and non-empty, the built-in one otherwise. */
  function ProcessBatchRefinement(
    source: ReadReply, targetRange: string, customPrompt: Option<string>,
    ai: AiOracle, writeReply: WriteReply): (run: RefinementRun)
    ensures forall j | 0 <= j < |run.aiCalls| :: run.aiCalls[j].context == Some(RefinePrompt(customPrompt))
  {
    RefineBatch(source, targetRange, RefinePrompt(customPrompt), ai, writeReply)
  }

  /** The batch refines exactly the blank-second-cell rows, in row order,
      sending each row's first cell with the resolved instruction. */
  lemma RefinementRequests(
    source: ReadReply, targetRange: string, customPrompt: Option<string>,
    ai: AiOracle, writeReply: WriteReply, j: nat)
    requires source.ReadOk?
    requires j < |NeedingRows(SourceGrid(source))|
    ensures var idx := NeedingRows(SourceGrid(source));
      var run := ProcessBatchRefinement(source, targetRange, customPrompt, ai, writeReply);
      j < |run.aiCalls| && run.aiCalls[j] == RefineRequest(CellOr(SourceGrid(source)[idx[j]], 0), customPrompt)
  {
    var grid := SourceGrid(source);
    var items := ItemsToRefine(grid);
    assert items[j] == RowRecord(grid[NeedingRows(grid)[j]], NeedingRows(grid)[j]);
  }

  /** Successes are the refining replies; errors are the other replies plus
      one for a failed write. */
  lemma RefinementCounts(
    source: ReadReply, targetRange: string, instruction: string,
    ai: AiOracle, writeReply: WriteReply)
    requires source.ReadOk?
    ensures var n := |NeedingRows(SourceGrid(source))|;
      var run := RefineBatch(source, targetRange, instruction, ai, writeReply);
      && run.result.successCount == RefiningReplies(ai, 0, n)
      && run.result.errorCount == n - RefiningReplies(ai, 0, n)
           + (if run.result.successCount > 0 && writeReply.WriteFailed? then 1 else 0)
  {
    var grid := SourceGrid(source);
    var items := ItemsToRefine(grid);
    if |items| == 0 {
      assert RefiningReplies(ai, 0, 0) == 0;
    }
  }

  /** The refined list written back puts item `j`'s text at item `j`'s row. */
  lemma LoopWritesRefinedItem(
    items: seq<AnswerData>, instruction: string, ai: AiOracle,
    targetRange: string, writeReply: WriteReply, j: nat)
    requires IncreasingRows(items) && j < |items| && ReplyRefines(ai(j))
    ensures var w := WriteRefinedAnswers(targetRange, RefineLoop(items, instruction, ai, 0).refined, writeReply);
      && w.call.Some?
      && items[j].rowIndex < |w.call.value.values|
      && w.call.value.values[items[j].rowIndex] == [ai(j).processedText]
  {
    var st := RefineLoop(items, instruction, ai, 0);
    RefinedListHas(items, ai, 0, j);
    var x := RefinedAnswer(items[j].rowIndex, ai(j).processedText);
    assert x in st.refined;
    RefinedListIncreasing(items, ai, 0);
    DenseColumnPlacement(st.refined, items[j].rowIndex);
  }

  /** The records picked at increasing positions are in increasing row order. */
  lemma ItemsIncreasing(grid: Grid)
    ensures IncreasingRows(ItemsToRefine(grid))
  {
    var idx := NeedingRows(grid);
    var items := ItemsToRefine(grid);
    forall a, b | 0 <= a < b < |items| ensures items[a].rowIndex < items[b].rowIndex {
      assert items[a].rowIndex == idx[a] && items[b].rowIndex == idx[b];
    }
  }

  /** Row `idx[j]` whose reply refines is written at its own slot of the target. */
  lemma RefinementWritesRefinedRow(
    source: ReadReply, targetRange: string, instruction: string,
    ai: AiOracle, writeReply: WriteReply, j: nat)
    requires source.ReadOk?
    requires j < |NeedingRows(SourceGrid(source))| && ReplyRefines(ai(j))
    ensures var idx := NeedingRows(SourceGrid(source));
      var run := RefineBatch(source, targetRange, instruction, ai, writeReply);
      && run.write.Some? && run.write.value.range == targetRange
      && idx[j] < |run.write.value.values|
      && run.write.value.values[idx[j]] == [ai(j).processedText]
  {
    var grid := SourceGrid(source);
    var idx := NeedingRows(grid);
    var items := ItemsToRefine(grid);
    assert items[j].rowIndex == idx[j];
    ItemsIncreasing(grid);
    LoopWritesRefinedItem(items, instruction, ai, targetRange, writeReply, j);
  }

  /** Every other slot of the written block is blank: rows that were skipped,
      already refined, or whose reply failed are overwritten with `""`. */
  lemma RefinementBlanksOtherSlots(
    source: ReadReply, targetRange: string, instruction: string,
    ai: AiOracle, writeReply: WriteReply, i: nat)
    requires source.ReadOk?
    requires var run := RefineBatch(source, targetRange, instruction, ai, writeReply);
      run.write.Some? && i < |run.write.value.values|
    requires var idx := NeedingRows(SourceGrid(source));
      forall j | 0 <= j < |idx| && idx[j] == i :: !ReplyRefines(ai(j))
    ensures RefineBatch(source, targetRange, instruction, ai, writeReply).write.value.values[i] == [""]
  {
    var grid := SourceGrid(source);
    var idx := NeedingRows(grid);
    var items := ItemsToRefine(grid);
    forall j | 0 <= j < |items| && items[j].rowIndex == i ensures !ReplyRefines(ai(j)) {
      assert items[j] == RowRecord(grid[idx[j]], idx[j]);
    }
    ItemsIncreasing(grid);
    LoopBlanksOtherSlots(items, ai, i);
  }

  /** A slot no refining item owns is blank in the written column. */
  lemma LoopBlanksOtherSlots(items: seq<AnswerData>, ai: AiOracle, i: nat)
    requires IncreasingRows(items)
    requires forall j | 0 <= j < |items| && items[j].rowIndex == i :: !ReplyRefines(ai(j))
    requires |RefinedList(items, ai, 0)| > 0 && i <= MaxRowIndex(RefinedList(items, ai, 0))
    ensures DenseColumn(RefinedList(items, ai, 0))[i] == [""]
  {
    var refined := RefinedList(items, ai, 0);
    RefinedListIncreasing(items, ai, 0);
    assert forall j | 0 <= j < |items| && items[j].rowIndex == i :: !ReplyRefines(ai(0 + j));
    RefinedListAvoids(items, ai, 0, i);
    DenseColumnPlacement(refined, i);
  }

  /** No refined answer carries a row whose items all failed. */
  lemma {:induction false} RefinedListAvoids(items: seq<AnswerData>, ai: AiOracle, k: nat, i: nat)
    requires forall j | 0 <= j < |items| && items[j].rowIndex == i :: !ReplyRefines(ai(k + j))
    ensures forall x | x in RefinedList(items, ai, k) :: x.rowIndex != i
    decreases |items|
  {
    if |items| > 0 {
      assert items[0].rowIndex == i ==> !ReplyRefines(ai(k + 0));
      forall j | 0 <= j < |items[1..]| && items[1..][j].rowIndex == i
        ensures !ReplyRefines(ai(k + 1 + j))
      {
        assert items[1..][j] == items[j + 1];
        assert k + 1 + j == k + (j + 1);
      }
      RefinedListAvoids(items[1..], ai, k + 1, i);
    }
  }

  /** A row whose reply does not refine is reported by its row number. */
  lemma RefinementReportsFailedRow(
    source: ReadReply, targetRange: string, instruction: string,
    ai: AiOracle, writeReply: WriteReply, j: nat)
    requires source.ReadOk?
    requires j < |NeedingRows(SourceGrid(source))| && !ReplyRefines(ai(j))
    ensures var idx := NeedingRows(SourceGrid(source));
      RowError(idx[j], RefineAnswerText(ai(j)))
        in ErrorList(RefineBatch(source, targetRange, instruction, ai, writeReply).result)
  {
    var grid := SourceGrid(source);
    var idx := NeedingRows(grid);
    var items := ItemsToRefine(grid);
    assert items[j] == RowRecord(grid[idx[j]], idx[j]);
    LoopErrorsHas(items, ai, 0, j);
  }

  /** A failed write changes nothing but one extra error at the end. */
  lemma WriteFailureAddsOneError(
    source: ReadReply, targetRange: string, instruction: string, ai: AiOracle, e: string)
    requires source.ReadOk?
    ensures var ok := RefineBatch(source, targetRange, instruction, ai, WriteOk);
      var bad := RefineBatch(source, targetRange, instruction, ai, WriteFailed(e));
      && bad.aiCalls == ok.aiCalls && bad.write == ok.write
      && bad.result.processedCount == ok.result.processedCount
      && bad.result.successCount == ok.result.successCount
      && (ok.write.None? ==> bad.result == ok.result)
      && (ok.write.Some? ==>
            && bad.result.errorCount == ok.result.errorCount + 1
            && ErrorList(bad.result) == ErrorList(ok.result) + ["Write failed: " + e])
  {
  }
}
