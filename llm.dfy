/** `query_llm` of src/llm_interface.py: one call of a chat model, which
    answers a prompt with text or fails (the call raises). Agents take the
    model as a function parameter from the prompt they build to a reply. */
module LlmInterface {

  datatype Reply = Answered(text: string) | Failed(message: string)
}
