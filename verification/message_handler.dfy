/** The background `MessageHandler`: routes a refine or feedback request to
    the orchestrator and wraps what comes back in a response envelope. The
    orchestrator is a parameter: it either resolves with a batch result or
    throws. */
module MessageHandler {
  import opened Values
  import opened BatchResults
  import opened ErrorHandler

  /** An incoming message; `Other` is any message whose `type` is neither
      of the two known ones. */
  datatype Message =
    | RefineAnswers(spreadsheetId: string, sourceRange: string, targetRange: string,
                    customPrompt: Option<string>)
    | GenerateFeedback(spreadsheetId: string, questionRange: string, answerRange: string,
                       targetRange: string)
    | Other(kind: string)

  /** What the handler hands to the orchestrator. */
  datatype Request =
    | RefineRequest(spreadsheetId: string, sourceRange: string, targetRange: string,
                    customPrompt: Option<string>)
    | FeedbackRequest(spreadsheetId: string, questionRange: string, answerRange: string,
                      targetRange: string)

  /** How an orchestrator call ends. */
  datatype Outcome = Resolved(result: BatchResult) | Rejected(thrown: Thrown)

  /** `MessageResponse`; `kind` is the envelope's `type`. */
  datatype Response = Response(success: bool, kind: string, data: Option<BatchResult>, error: Option<string>)

  const RefineResponse := "REFINE_ANSWERS_RESPONSE"
  const FeedbackResponse := "GENERATE_FEEDBACK_RESPONSE"
  const ErrorResponse := "ERROR_RESPONSE"
  const UnknownType := "Unknown message type"

  /** The request a known message is forwarded as. */
  function Forward(message: Message): (r: Option<Request>)
    ensures r.None? <==> message.Other?
    ensures message.RefineAnswers? ==>
      && r.value.RefineRequest?
      && r.value.spreadsheetId == message.spreadsheetId && r.value.sourceRange == message.sourceRange
      && r.value.targetRange == message.targetRange && r.value.customPrompt == message.customPrompt
    ensures message.GenerateFeedback? ==>
      && r.value.FeedbackRequest?
      && r.value.spreadsheetId == message.spreadsheetId && r.value.questionRange == message.questionRange
      && r.value.answerRange == message.answerRange && r.value.targetRange == message.targetRange
  {
    match message
    case RefineAnswers(id, source, target, prompt) => Some(RefineRequest(id, source, target, prompt))
    case GenerateFeedback(id, questions, answers, target) => Some(FeedbackRequest(id, questions, answers, target))
    case Other(_) => None
  }

  /** The envelope a handler builds from its orchestrator outcome: the
      result and its success flag, or the thrown error's message. */
  function Envelope(kind: string, outcome: Outcome): (r: Response)
    ensures r.kind == kind
    ensures outcome.Resolved? ==>
      r.success == outcome.result.success && r.data == Some(outcome.result) && r.error.None?
    ensures outcome.Rejected? ==>
      && !r.success && r.data.None?
      && r.error == Some(if outcome.thrown.ErrorObject? then outcome.thrown.message else UnknownMessage)
  {
    match outcome
    case Resolved(result) => Response(result.success, kind, Some(result), None)
    case Rejected(thrown) =>
      Response(false, kind, None, Some(if thrown.ErrorObject? then thrown.message else UnknownMessage))
  }

  /** `handleMessage`: an unknown type is answered with an error envelope
      and the orchestrator is not called; a known type is answered in its
      own response type with whatever the orchestrator did with the
      forwarded request. */
  function HandleMessage(message: Message, orchestrator: Request -> Outcome): (r: Response)
    ensures message.Other? ==> r == Response(false, ErrorResponse, None, Some(UnknownType))
    ensures message.RefineAnswers? ==> r == Envelope(RefineResponse, orchestrator(Forward(message).value))
    ensures message.GenerateFeedback? ==> r == Envelope(FeedbackResponse, orchestrator(Forward(message).value))
  {
    match message
    case RefineAnswers(id, source, target, prompt) =>
      Envelope(RefineResponse, orchestrator(RefineRequest(id, source, target, prompt)))
    case GenerateFeedback(id, questions, answers, target) =>
      Envelope(FeedbackResponse, orchestrator(FeedbackRequest(id, questions, answers, target)))
    case Other(_) => Response(false, ErrorResponse, None, Some(UnknownType))
  }

  /** Every response carries exactly one of data and error, reports success
      only with a successful result, and uses the error type only for an
      unknown message. */
  lemma ResponseShape(message: Message, orchestrator: Request -> Outcome)
    ensures var r := HandleMessage(message, orchestrator);
      && (r.data.Some? <==> r.error.None?)
      && (r.success ==> r.data.Some? && r.data.value.success)
      && (r.kind == ErrorResponse <==> message.Other?)
      && (r.kind == RefineResponse <==> message.RefineAnswers?)
  {
  }

  /** The custom prompt reaches the orchestrator only on the refine path:
      a feedback request has no place for it. */
  lemma PromptOnlyOnRefine(message: Message)
    requires Forward(message).Some?
    ensures Forward(message).value.RefineRequest? <==> message.RefineAnswers?
    ensures message.RefineAnswers? ==> Forward(message).value.customPrompt == message.customPrompt
  {
  }
}
