# Sherlock chat turn and home commands in Dafny

Sherlock is a chat assistant. Each chat turn reads the user's stored
conversation snapshot. The snapshot is a JSON list of `{"m": text, "s": tag}`
records. The turn decodes it into the agent's memory, logs the new human
message, runs the agent, logs the reply, and writes the re-encoded memory back
as the user's new snapshot. The repository has two versions of this turn:
`sherlock.py` and `langchain-remake/sherlock.py`. `home.py` builds the
`hass-cli` command lines that the agent's tools run against Home Assistant.

Modules:

- `Wrappers`: `Option`, `Result` and `Outcome`.
- `ContextCodec`: the snapshot records, their decoding (the list
  comprehension over `json.loads`) and their encoding (the list comprehension
  fed to `json.dumps`). Both versions share it. It proves the round trip, the
  exact condition under which the round trip holds, and how re-encoding a
  decoded snapshot retags it.
- `ConversationStore`: the `db` module, seen only through the three calls a
  turn makes. The class `Store` holds one snapshot per user id and an
  append-only message log. A ghost trace records the calls in order.
- `AgentRuntime`: the agent executor and its memory. Each turn receives them
  as opaque functions.
- `Sherlock` and `SherlockRemake`: the two `ask_sherlock` turns, each a class
  `Bot` whose field `messages` is the module-level shared
  `memory.chat_memory.messages`. Each method states the complete new state of
  the bot and the store on every path: decode failure, agent failure, success.
- `Home`: the argument lists of `lights`, `cringe_alert`, `disco_mode` and
  `play_music`. The `--arguments` string is checked against an independent
  reader, `SplitFields`, a quote-aware comma splitter. It is shown to read each
  string back as the intended `key=value` fields, in order. The commas inside
  the quoted colour list stay inside their field. A second reader, `ReadInts`,
  reads the colour list back as its five channels, in order.

The model follows the code in these places:

- A user turn is tagged with the owner's id and read back as human whenever its
  tag is not `"AI"`. So the round trip fails for the user id `"AI"`: that user's
  own messages come back as AI messages (`ContextCodec.RoundTripExactly`,
  `ContextCodec.AIOwnerTurnsHumanIntoAI`).
- The encoder tags every message that is not human with `"AI"`, not only AI
  messages.
- When the agent raises, the snapshot is untouched. However, the human message
  was already written to the log.
- `sherlock.py` appends the new human message to the memory before running the
  agent. `langchain-remake/sherlock.py` does not: it passes the message to the
  agent as its `input` and relies on the agent to record it in memory.
  `SherlockRemake.ExistingUserTurn` shows the difference: with an agent that
  records only its own reply, the new message never reaches the snapshot.
- Re-encoding writes the current owner's id over every non-`"AI"` tag, so
  another user's id in a snapshot does not survive a turn
  (`ContextCodec.EncodeDecode`).

## Model

| member | source | states |
|---|---|---|
| ContextCodec.DecodeEntry | sherlock.py:97-99 | a record decodes exactly when it has both keys; the message keeps the text, is AI exactly when the tag is "AI" and human otherwise; on failure the error is "s" when "s" is missing and "m" otherwise, since the tag is looked up first |
| ContextCodec.DecodeEntries | sherlock.py:95-101 | a list decodes exactly when every record has both keys, to a list of the same length decoding pointwise; otherwise the error names the first bad record and the key its own decode reports missing, and no partial list is returned |
| ContextCodec.DecodeContext | sherlock.py:93-103 | no stored context is the empty conversation; a decoded conversation holds only human and AI messages |
| ContextCodec.EncodeMessage | sherlock.py:117 | an encoded record has exactly the keys "m" and "s" |
| ContextCodec.Encode | sherlock.py:115-120 | one record per message in order, holding its text; human messages are tagged with the owner's id, all others with "AI" |
| ContextCodec.DecodeEncode | langchain-remake/sherlock.py:66-91 | decoding an encoded conversation always succeeds and gives each message back with its text, human exactly when it was human and the owner is not "AI" |
| ContextCodec.RoundTrip | sherlock.py:95-120 | for an owner other than "AI", a conversation of human and AI messages survives encode then decode unchanged |
| ContextCodec.RoundTripExactly | sherlock.py:95-120 | the round trip holds if and only if the owner is not "AI" or the conversation has no human message |
| ContextCodec.AIOwnerTurnsHumanIntoAI | sherlock.py:96-117 | a human "hello" stored for the user id "AI" reads back as an AI message |
| ContextCodec.EncodeDecode | langchain-remake/sherlock.py:69-91 | re-encoding a decoded snapshot keeps each record's text and "AI" tags and replaces every other tag by the current owner's id |
| ContextCodec.DecodeIsStable | langchain-remake/sherlock.py:69-91 | for an owner other than "AI", decode, encode and decode again gives what the first decode gave |
| ContextCodec.EncodeAppend | sherlock.py:115-120 | encoding a conversation extended by one message extends the records by that message's record |
| ConversationStore.Store.constructor | sherlock.py:16 | a fresh store holds no snapshots, no log and no calls |
| ConversationStore.Store.LastContext | sherlock.py:93-94 | a user has a snapshot exactly when one was written for their id, and it is the last one written |
| ConversationStore.Store.GetLastContextOf | sherlock.py:93 | returns the user's snapshot or none, changing nothing but the call trace |
| ConversationStore.Store.SaveMessageToDatabase | sherlock.py:108-112 | appends exactly one log record with the user id, text and tag |
| ConversationStore.Store.UpdateUserLastOutputOf | sherlock.py:121 | the user's snapshot becomes the new one (last write wins) and every other user's snapshot is unchanged |
| Sherlock.Bot.constructor | sherlock.py:41-43 | the shared memory starts empty and the bot uses the given store |
| Sherlock.Bot.AskSherlock | sherlock.py:90-122 | on a malformed snapshot nothing but the read happens; when the agent raises, the memory holds context plus input, the input is logged and no snapshot is written; otherwise the reply is returned, both messages are logged in order and the snapshot becomes the encoded memory |
| Sherlock.ExistingUserTurn | sherlock.py:90-122 | for "bob" with stored [hi/bob], a turn "hello" answered "hey" returns "hey" and leaves the snapshot [hi/bob, hello/bob, hey/AI] |
| SherlockRemake.Bot.constructor | langchain-remake/sherlock.py:14-16 | the shared memory starts empty and the bot uses the given store |
| SherlockRemake.Bot.AskSherlock | langchain-remake/sherlock.py:65-92 | as the first version, except that the agent runs on the decoded context alone, receives the human input, and the turn returns no reply |
| SherlockRemake.ExistingUserTurn | langchain-remake/sherlock.py:65-92 | with an agent that records only its reply, the snapshot becomes [hi/bob, hey/AI]: the new message is lost |
| Home.DecimalString | home.py:10-12 | the rendering of an integer is non-empty, free of commas and quotes, and starts with "-" exactly for negative numbers |
| Home.ParseDecimalString | home.py:10-12 | reading back the rendering of any integer gives that integer |
| Home.RgbwwString | home.py:14 | the rendering of a colour list is bracketed and free of single quotes |
| Home.RgbwwStringRead | home.py:14 | reading the rendering back as a printed list of integers gives the five channels, in order |
| Home.RgbwwField | home.py:13-14 | no colour gives no field; a colour gives one quoted rgbww field whose value reads back as the five channels, in order |
| Home.OnOff | home.py:19 | "on" exactly when the state is on, "off" exactly when it is off |
| Home.LightsVerb | home.py:19 | the service named is light.turn_on when turning on and light.turn_off when turning off |
| Home.OptionFragments | home.py:7-15 | the appended fragments join into the option fields of the arguments, one per supplied option, in order |
| Home.LightsOptions | home.py:8-14 | every option field can be read back unambiguously |
| Home.SplitArguments | home.py:15-20 | an entity field followed by separable option fragments reads back as their meanings, in order |
| Home.Lights | home.py:6-22 | the command is hass-cli service call, then light.turn_on when turning on and light.turn_off when turning off, then --arguments with the entity id followed by the option fields |
| Home.LightsOffIgnoresOptions | home.py:8-20 | turning the light off sends "entity_id=light.disco_group" alone, whatever options are passed |
| Home.LightsArgumentsRead | home.py:8-20 | the arguments read back as entity_id=light.disco_group followed by brightness_pct, brightness_step and rgbww for the options given, in that order, only when turning on |
| Home.StateToggle | home.py:24-40 | a four-word hass-cli state command whose verb is turn_on exactly when on and turn_off exactly when off |
| Home.ToggleDiffersOnlyInVerb | home.py:24-40 | switching on and switching off differ only in the verb |
| Home.CringeAlert | home.py:24-31 | hass-cli state turn_on or turn_off script.cringe_alert, by the state |
| Home.DiscoMode | home.py:33-40 | hass-cli state turn_on or turn_off input_boolean.disco_mode, by the state |
| Home.PlayMusic | home.py:42-53 | hass-cli service call media_player.play_media whose arguments read back as the Spotify player, the playlist URL, the type playlist and the second player, in order |
| Home.PlayMusicNamesTwoPlayers | home.py:51 | the play_music arguments hold four fields naming entity_id twice, media_player.spotify first and media_player.spotify_emil last |

## Left out

- JSON text: the snapshot is modelled as the parsed list of records, each a map from string keys to string values. Text that is not JSON, a list element that is not an object, and values that are not strings are not modelled, and neither are `json.loads` and `json.dumps` themselves.
- The agent executor, its prompt, tools, language model and PromptLayer wiring: the agent is a function parameter that returns a reply and the memory's message list afterwards, or raises.
- `load_memory_variables`: a function parameter. Its token-budget truncation is not modelled.
- The `db` module's own code and storage failures: the store is modelled by the state its three calls read and write. A failing storage call is not modelled.
- Concurrency: turns are `async` and share one module-level memory across users. The model runs one turn at a time, so interleaving between turns is not modelled.
- `cli_mode` and `loop`: console input and output loops.
- `subprocess.call` and the behaviour of `hass-cli` and Home Assistant: the model builds the argument list only. `SplitFields` is the model's own reading of the `--arguments` format, not the client's parser. Likewise `ReadInts` is the model's own reader of a printed integer list, the partner of `RgbwwString`.
- Home.Lights: the `state` argument is a Boolean. Python truthiness of other values is not modelled.
- Home.CringeAlert: the `state` argument is a Boolean. Python truthiness of other values is not modelled.
- Home.DiscoMode: the `state` argument is a Boolean. Python truthiness of other values is not modelled.
- Sherlock.Bot.AskSherlock: `user_name` has no default; a caller that omits it, as `cli_mode` does, is modelled by passing "a user" explicitly.
