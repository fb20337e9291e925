/**
 * The agent executor and its token-buffer memory, which the chat turns call
 * but which are not part of this model.  Both are opaque functions that a turn
 * receives as parameters.
 */
module AgentRuntime {
  import opened ContextCodec

  /**
   * What one agent run does: it returns its output and leaves the memory's
   * message list in some state (the executor may itself record the exchange),
   * or it raises.
   */
  datatype AgentOutcome = Replied(output: string, memoryAfter: seq<Message>) | Raised

  /**
   * An agent run, given the memory's message list when the run starts and the
   * one keyword argument the turn passes to it.
   */
  type Agent = (seq<Message>, string) -> AgentOutcome

  /**
   * `load_memory_variables({})["chat_history"]`: the messages the memory hands
   * back, which a token budget may have truncated.
   */
  type MemoryLoader = seq<Message> -> seq<Message>

  /** Why a turn failed: the stored snapshot lacked a key, or the agent raised. */
  datatype TurnError = MalformedContext(cause: DecodeError) | AgentFailed
}
