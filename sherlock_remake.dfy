/**
 * The chat turn of `langchain-remake/sherlock.py`.  It differs from the first
 * version in that the new human message is not added to the memory before the
 * agent runs (the agent receives it as its `input` argument instead), and in
 * that `ask_sherlock` returns nothing.
 */
module SherlockRemake {
  import opened Wrappers
  import opened ContextCodec
  import opened ConversationStore
  import opened AgentRuntime
  import Sherlock

  /** The module-level state of `langchain-remake/sherlock.py`. */
  class Bot {
    /** `memory.chat_memory.messages`: one list shared by every user's turns. */
    var messages: seq<Message>
    /** The `db` module. */
    const store: Store

    constructor (store: Store)
      ensures this.store == store && messages == []
    {
      this.store := store;
      messages := [];
    }

    /**
     * `ask_sherlock(human_input, user_id)`.  The agent runs on the decoded
     * context alone and receives `human_input`; nothing is returned.
     */
    method AskSherlock(humanInput: string, userId: string, agent: Agent, loadMemory: MemoryLoader)
      returns (r: Outcome<TurnError>)
      modifies this, store
      ensures var stored := old(store.LastContext(userId));
        var context := DecodeContext(stored);
        var human := LogRecord(userId, humanInput, userId);
        match context
        case Err(e) =>
          && r == Failed(MalformedContext(e))
          && messages == old(messages)
          && store.snapshots == old(store.snapshots) && store.log == old(store.log)
          && store.calls == old(store.calls) + [GetLastContext(userId)]
        case Ok(ms) =>
          match agent(ms, humanInput)
          case Raised =>
            && r == Failed(AgentFailed)
            && messages == ms
            && store.snapshots == old(store.snapshots)
            && store.log == old(store.log) + [human]
            && store.calls == old(store.calls) + [GetLastContext(userId)] + [SaveMessage(userId, humanInput, userId)]
          case Replied(output, after) =>
            var snapshot := Encode(loadMemory(after), userId);
            && r == Done
            && messages == after
            && store.snapshots == old(store.snapshots)[userId := snapshot]
            && store.log == old(store.log) + [human] + [LogRecord(userId, output, AITag)]
            && store.calls == old(store.calls) + [GetLastContext(userId)] + [SaveMessage(userId, humanInput, userId)]
                 + [SaveMessage(userId, output, AITag)] + [UpdateUserLastOutput(userId, snapshot)]
    {
      var stored := store.GetLastContextOf(userId);
      var context := DecodeContext(stored);
      if context.Err? {
        return Failed(MalformedContext(context.error));
      }
      messages := context.value;
      store.SaveMessageToDatabase(userId, humanInput, userId);
      var outcome := agent(messages, humanInput);
      if outcome.Raised? {
        return Failed(AgentFailed);
      }
      messages := outcome.memoryAfter;
      store.SaveMessageToDatabase(userId, outcome.output, AITag);
      var history := loadMemory(messages);
      store.UpdateUserLastOutputOf(userId, Encode(history, userId));
      r := Done;
    }
  }

  /**
   * The same turn as `Sherlock.ExistingUserTurn` in this version: with an
   * agent that adds only its own reply to the memory, the new human message
   * never reaches the snapshot, because it was not added to the memory first.
   */
  method ExistingUserTurn() returns (r: Outcome<TurnError>, snapshot: Option<seq<Entry>>)
    ensures r == Done
    ensures snapshot == Some([
      map[TextKey := "hi", TagKey := "bob"],
      map[TextKey := "hey", TagKey := AITag]])
  {
    var stored := [map[TextKey := "hi", TagKey := "bob"]];
    var store := new Store();
    store.UpdateUserLastOutputOf("bob", stored);
    var bot := new Bot(store);
    var context := DecodeEntries(stored).value;
    assert DecodesTo(stored[0], context[0]);
    assert context == [Message(Human, "hi")];
    r := bot.AskSherlock("hello", "bob", Sherlock.ReplyHey, Sherlock.KeepAll);
    snapshot := store.LastContext("bob");
    EncodeAppend([], Message(Human, "hi"), "bob");
    EncodeAppend(context, Message(AI, "hey"), "bob");
    calc {
      Encode(context + [Message(AI, "hey")], "bob");
      Encode(context, "bob") + [EncodeMessage(Message(AI, "hey"), "bob")];
      { assert [] + [Message(Human, "hi")] == context; }
      Encode([], "bob") + [EncodeMessage(Message(Human, "hi"), "bob")]
        + [EncodeMessage(Message(AI, "hey"), "bob")];
      [map[TextKey := "hi", TagKey := "bob"], map[TextKey := "hey", TagKey := AITag]];
    }
  }
}
