/** The generative-text client as the pipelines see it. */
module GeminiApi {
  import opened Values

  /** `processText`'s `type` field. */
  datatype Kind = Refine | Feedback

  /** One `processText` request. The older client takes `{ text, type, context }`;
      the newer one takes `{ type, prompt }`, whose prompt is kept in `text`
      with no context. */
  datatype AiRequest = AiRequest(kind: Kind, text: string, context: Option<string>)

  /** One `processText` reply: success flag, generated text and token usage. */
  datatype AiReply = AiReply(success: bool, processedText: string, tokensUsed: Option<int>)

  /** The replies the service gives within one batch: `oracle(k)` answers the
      k-th call (counting from 0). Any sequence of successes and failures is
      one such function. */
  type AiOracle = nat -> AiReply
}
