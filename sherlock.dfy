/**
 * The chat turn of `sherlock.py`: `ask_sherlock` rebuilds the shared memory
 * from the stored snapshot, adds the new human message, logs it, runs the
 * agent, logs the reply and writes the re-encoded memory back as the snapshot.
 */
module Sherlock {
  import opened Wrappers
  import opened ContextCodec
  import opened ConversationStore
  import opened AgentRuntime

  /** The module-level state of `sherlock.py`. */
  class Bot {
    /** `memory.chat_memory.messages`: one list shared by every user's turns. */
    var messages: seq<Message>
    /** The `db` module. */
    const store: Store

    constructor (store: Store)
      ensures this.store == store && messages == []
    {
      this.store := store;
      messages := [];
    }

    /**
     * `ask_sherlock(human_input, user_id, user_name)`.  The agent runs on the
     * decoded context followed by the new human message and receives
     * `user_name`; the reply is returned.
     */
    method AskSherlock(humanInput: string, userId: string, userName: string,
                       agent: Agent, loadMemory: MemoryLoader)
      returns (r: Result<string, TurnError>)
      modifies this, store
      ensures var stored := old(store.LastContext(userId));
        var context := DecodeContext(stored);
        var human := LogRecord(userId, humanInput, userId);
        match context
        case Err(e) =>
          // the decode fails before anything is installed or written
          && r == Err(MalformedContext(e))
          && messages == old(messages)
          && store.snapshots == old(store.snapshots) && store.log == old(store.log)
          && store.calls == old(store.calls) + [GetLastContext(userId)]
        case Ok(ms) =>
          var working := ms + [Message(Human, humanInput)];
          match agent(working, userName)
          case Raised =>
            // the human message is already logged; the snapshot is untouched
            && r == Err(AgentFailed)
            && messages == working
            && store.snapshots == old(store.snapshots)
            && store.log == old(store.log) + [human]
            && store.calls == old(store.calls) + [GetLastContext(userId)] + [SaveMessage(userId, humanInput, userId)]
          case Replied(output, after) =>
            var snapshot := Encode(loadMemory(after), userId);
            && r == Ok(output)
            && messages == after
            && store.snapshots == old(store.snapshots)[userId := snapshot]
            && store.log == old(store.log) + [human] + [LogRecord(userId, output, AITag)]
            && store.calls == old(store.calls) + [GetLastContext(userId)] + [SaveMessage(userId, humanInput, userId)]
                 + [SaveMessage(userId, output, AITag)] + [UpdateUserLastOutput(userId, snapshot)]
    {
      var stored := store.GetLastContextOf(userId);
      var context := DecodeContext(stored);
      if context.Err? {
        return Err(MalformedContext(context.error));
      }
      messages := context.value;
      messages := messages + [Message(Human, humanInput)];
      store.SaveMessageToDatabase(userId, humanInput, userId);
      var outcome := agent(messages, userName);
      if outcome.Raised? {
        return Err(AgentFailed);
      }
      messages := outcome.memoryAfter;
      var output := outcome.output;
      store.SaveMessageToDatabase(userId, output, AITag);
      var history := loadMemory(messages);
      store.UpdateUserLastOutputOf(userId, Encode(history, userId));
      r := Ok(output);
    }
  }

  /**
   * An agent that answers "hey" and adds only its own reply to the memory; a
   * memory that keeps every message.
   */
  function ReplyHey(memory: seq<Message>, arg: string): AgentOutcome {
    Replied("hey", memory + [Message(AI, "hey")])
  }

  function KeepAll(memory: seq<Message>): seq<Message> {
    memory
  }

  /**
   * A turn of the existing user "bob", whose snapshot holds his earlier "hi":
   * the new snapshot holds, in order, the earlier message, the new human
   * message tagged "bob" and the reply tagged "AI".
   */
  method ExistingUserTurn() returns (r: Result<string, TurnError>, snapshot: Option<seq<Entry>>)
    ensures r == Ok("hey")
    ensures snapshot == Some([
      map[TextKey := "hi", TagKey := "bob"],
      map[TextKey := "hello", TagKey := "bob"],
      map[TextKey := "hey", TagKey := AITag]])
  {
    var stored := [map[TextKey := "hi", TagKey := "bob"]];
    var store := new Store();
    store.UpdateUserLastOutputOf("bob", stored);
    var bot := new Bot(store);
    var context := DecodeEntries(stored).value;
    assert DecodesTo(stored[0], context[0]);
    assert context == [Message(Human, "hi")];
    r := bot.AskSherlock("hello", "bob", "Bob", ReplyHey, KeepAll);
    snapshot := store.LastContext("bob");
    var working := context + [Message(Human, "hello")];
    EncodeAppend([], Message(Human, "hi"), "bob");
    EncodeAppend(context, Message(Human, "hello"), "bob");
    EncodeAppend(working, Message(AI, "hey"), "bob");
    calc {
      Encode(working + [Message(AI, "hey")], "bob");
      Encode(working, "bob") + [EncodeMessage(Message(AI, "hey"), "bob")];
      Encode(context, "bob") + [EncodeMessage(Message(Human, "hello"), "bob")]
        + [EncodeMessage(Message(AI, "hey"), "bob")];
      { assert [] + [Message(Human, "hi")] == context; }
      Encode([], "bob") + [EncodeMessage(Message(Human, "hi"), "bob")]
        + [EncodeMessage(Message(Human, "hello"), "bob")] + [EncodeMessage(Message(AI, "hey"), "bob")];
      [map[TextKey := "hi", TagKey := "bob"], map[TextKey := "hello", TagKey := "bob"],
       map[TextKey := "hey", TagKey := AITag]];
    }
  }
}
