/**
 * NewsAgent/agents/base_agent.py: what every agent shares — its response
 * record, the optional language model and the call that never raises.
 */
module BaseAgent {
  import opened Wrappers
  import opened Text
  import opened Json
  import opened Oracles

  /** The AgentResponse dataclass; the time stamp is a clock reading passed in. */
  datatype AgentResponse = AgentResponse(success: bool, data: Doc, message: string, agentName: string, timestamp: string)

  const NoLlmMessage: string := "Error: Gemini API not available"
  const LlmErrorPrefix: string := "Gemini API error: "

  /** The model an agent gets at construction: present iff GEMINI_API_KEY is set and non-empty. */
  function InitialLlm(apiKey: Option<string>, model: Llm): (llm: Option<Llm>)
    ensures llm.Some? <==> Truthy(apiKey)
    ensures llm.Some? ==> llm.value == model
  {
    if Truthy(apiKey) then Some(model) else None
  }

  /** _generate_content: the reply text, or an error message in place of a
      missing model or a failed call; it never raises. */
  function GenerateContent(llm: Option<Llm>, prompt: string): (r: string)
    ensures llm.None? ==> r == NoLlmMessage
    ensures llm.Some? && llm.value(prompt).Reply? ==> r == llm.value(prompt).text
    ensures llm.Some? && llm.value(prompt).Failed? ==> r == LlmErrorPrefix + llm.value(prompt).error
  {
    if llm.None? then NoLlmMessage
    else
      match llm.value(prompt)
      case Reply(text) => text
      case Failed(error) => LlmErrorPrefix + error
  }

  /** Only a model that answers with empty text yields an empty string; every
      failure is reported as non-empty text, which callers cannot tell from an answer. */
  lemma GenerateContentEmpty(llm: Option<Llm>, prompt: string)
    ensures GenerateContent(llm, prompt) == "" <==> llm.Some? && llm.value(prompt) == Reply("")
  {
  }

  /** create_response: the given fields unchanged, with the agent's name. */
  function CreateResponse(name: string, success: bool, data: Doc, message: string, timestamp: string): (r: AgentResponse)
    ensures r.success == success && r.data == data && r.message == message
    ensures r.agentName == name && r.timestamp == timestamp
  {
    AgentResponse(success, data, message, name, timestamp)
  }
}
