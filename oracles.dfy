/**
 * The external services the core calls, reduced to what the core sees of
 * them. A language-model call answers with the text of the response or
 * fails with the text of the exception it raised.
 */
module Oracles {

  datatype LlmReply = Reply(text: string) | Failed(error: string)

  /** `llm.generate_content(prompt)` as a pure function of the prompt. */
  type Llm = string -> LlmReply
}
