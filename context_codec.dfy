/**
 * The conversation-context codec used by both versions of `ask_sherlock`.
 *
 * A stored snapshot is a list of JSON objects `{"m": text, "s": tag}`.  Decoding
 * turns a tag equal to "AI" into an AI message and any other tag into a human
 * message; encoding writes the owning user's id as the tag of every human
 * message and "AI" as the tag of every other message.  The JSON text syntax
 * itself is not modelled: an entry is the object it parses to.
 */
module ContextCodec {
  import opened Wrappers

  /**
   * The `type` of a chat message: "human", "ai", or any other kind (system,
   * chat, ...).  `Other(name)` stands only for a type other than "human" and
   * "ai"; those two are always `Human` and `AI`.
   */
  datatype MessageType = Human | AI | Other(name: string)

  /** A chat message: its type and its `content`. */
  datatype Message = Message(kind: MessageType, content: string)

  /** One stored record, a JSON object whose values are strings. */
  type Entry = map<string, string>

  /** The `KeyError` raised while decoding: the position of the record and the missing key. */
  datatype DecodeError = MissingField(index: nat, key: string)

  const TextKey: string := "m"
  const TagKey: string := "s"
  const AITag: string := "AI"

  /** A record that decoding accepts: it has both keys. */
  predicate WellFormed(e: Entry) {
    TagKey in e && TextKey in e
  }

  /** `m` is what the well-formed record `e` stands for. */
  predicate DecodesTo(e: Entry, m: Message)
    requires WellFormed(e)
  {
    && m.content == e[TextKey]
    && (m.kind == AI <==> e[TagKey] == AITag)
    && (m.kind == Human <==> e[TagKey] != AITag)
  }

  /** True when `m` is a human or an AI message, the two kinds a snapshot can hold. */
  predicate Conversational(m: Message) {
    m.kind == Human || m.kind == AI
  }

  /**
   * Decodes one record.  The tag is looked up first (it is the condition of the
   * conditional expression), then the text.
   */
  function DecodeEntry(e: Entry): (r: Result<Message, string>)
    ensures r.Ok? <==> WellFormed(e)
    ensures r.Ok? ==> DecodesTo(e, r.value)
    ensures r.Err? ==> r.error == (if TagKey !in e then TagKey else TextKey) && r.error !in e
  {
    if TagKey !in e then Err(TagKey)
    else if TextKey !in e then Err(TextKey)
    else if e[TagKey] == AITag then Ok(Message(AI, e[TextKey]))
    else Ok(Message(Human, e[TextKey]))
  }

  /**
   * Decodes a list of records in order.  The first record that lacks a key
   * makes the whole decode fail; no partial list is ever returned.
   */
  function DecodeEntries(entries: seq<Entry>): (r: Result<seq<Message>, DecodeError>)
    ensures r.Ok? <==> forall i :: 0 <= i < |entries| ==> WellFormed(entries[i])
    ensures r.Ok? ==>
      && |r.value| == |entries|
      && forall i :: 0 <= i < |entries| ==> WellFormed(entries[i]) && DecodesTo(entries[i], r.value[i])
    ensures r.Err? ==>
      && r.error.index < |entries|
      && r.error.key !in entries[r.error.index]
      && (forall j :: 0 <= j < r.error.index ==> WellFormed(entries[j]))
      && !WellFormed(entries[r.error.index])
      && r.error.key == DecodeEntry(entries[r.error.index]).error
  {
    if entries == [] then Ok([])
    else
      match DecodeEntry(entries[0])
      case Err(key) => Err(MissingField(0, key))
      case Ok(m) =>
        match DecodeEntries(entries[1..])
        case Err(e) => Err(MissingField(e.index + 1, e.key))
        case Ok(ms) => Ok([m] + ms)
  }

  /** Decodes the stored context; an absent context is the empty conversation. */
  function DecodeContext(stored: Option<seq<Entry>>): (r: Result<seq<Message>, DecodeError>)
    ensures stored.None? ==> r == Ok([])
    ensures r.Ok? ==> forall i :: 0 <= i < |r.value| ==> Conversational(r.value[i])
  {
    match stored
    case None => Ok([])
    case Some(entries) => DecodeEntries(entries)
  }

  /** The tag written for a message: the owner's id for human messages, "AI" otherwise. */
  function TagOf(m: Message, userId: string): string {
    if m.kind == Human then userId else AITag
  }

  /** Encodes one message as a record. */
  function EncodeMessage(m: Message, userId: string): (e: Entry)
    ensures e.Keys == {TextKey, TagKey}
  {
    map[TextKey := m.content, TagKey := TagOf(m, userId)]
  }

  /** Encodes a conversation, one record per message and in the same order. */
  function Encode(ms: seq<Message>, userId: string): (r: seq<Entry>)
    ensures |r| == |ms|
    ensures forall i :: 0 <= i < |ms| ==>
      && r[i].Keys == {TextKey, TagKey}
      && r[i][TextKey] == ms[i].content
      && r[i][TagKey] in {userId, AITag}
      && (ms[i].kind == Human ==> r[i][TagKey] == userId)
      && (ms[i].kind != Human ==> r[i][TagKey] == AITag)
  {
    seq(|ms|, i requires 0 <= i < |ms| => EncodeMessage(ms[i], userId))
  }

  /**
   * What a message becomes after a trip through a snapshot written for
   * `userId`: it keeps its content and is human exactly when it was human and
   * `userId` is not the "AI" tag.
   */
  function Replayed(m: Message, userId: string): Message {
    Message(if m.kind == Human && userId != AITag then Human else AI, m.content)
  }

  /** Decoding an encoding always succeeds and replays every message in order. */
  lemma {:induction false} DecodeEncode(ms: seq<Message>, userId: string)
    ensures DecodeEntries(Encode(ms, userId)).Ok?
    ensures var r := DecodeEntries(Encode(ms, userId)).value;
      |r| == |ms| && forall i :: 0 <= i < |ms| ==> r[i] == Replayed(ms[i], userId)
  {
    var es := Encode(ms, userId);
    forall i | 0 <= i < |es| ensures WellFormed(es[i]) { }
    var r := DecodeEntries(es).value;
    forall i | 0 <= i < |ms| ensures r[i] == Replayed(ms[i], userId) {
      assert DecodesTo(es[i], r[i]);
    }
  }

  /** Round trip: a conversation of human and AI messages survives encoding and decoding. */
  lemma {:induction false} RoundTrip(ms: seq<Message>, userId: string)
    requires userId != AITag
    requires forall i :: 0 <= i < |ms| ==> Conversational(ms[i])
    ensures DecodeEntries(Encode(ms, userId)) == Ok(ms)
  {
    DecodeEncode(ms, userId);
    var r := DecodeEntries(Encode(ms, userId)).value;
    assert forall i :: 0 <= i < |ms| ==> r[i] == ms[i];
    assert r == ms;
  }

  /**
   * The round trip holds exactly when the owner's id is not "AI" or the
   * conversation has no human message: with the id "AI", human turns come back
   * as AI turns.
   */
  lemma {:induction false} RoundTripExactly(ms: seq<Message>, userId: string)
    requires forall i :: 0 <= i < |ms| ==> Conversational(ms[i])
    ensures DecodeEntries(Encode(ms, userId)) == Ok(ms) <==>
      (userId != AITag || forall i :: 0 <= i < |ms| ==> ms[i].kind != Human)
  {
    DecodeEncode(ms, userId);
    var r := DecodeEntries(Encode(ms, userId)).value;
    if userId == AITag && exists i :: 0 <= i < |ms| && ms[i].kind == Human {
      var i :| 0 <= i < |ms| && ms[i].kind == Human;
      assert r[i].kind == AI;
      assert r != ms;
    } else {
      assert forall i :: 0 <= i < |ms| ==> r[i] == ms[i];
      assert r == ms;
    }
  }

  /** A human turn stored under the id "AI" is read back as an AI turn. */
  lemma AIOwnerTurnsHumanIntoAI()
    ensures DecodeEntries(Encode([Message(Human, "hello")], AITag)) == Ok([Message(AI, "hello")])
  {
    DecodeEncode([Message(Human, "hello")], AITag);
    var r := DecodeEntries(Encode([Message(Human, "hello")], AITag)).value;
    assert r == [Message(AI, "hello")];
  }

  /**
   * The record `e` written back by the owner `userId` after decoding: its text
   * is kept, an "AI" tag is kept, any other tag becomes `userId`, and every
   * other key is dropped.
   */
  function Retagged(e: Entry, userId: string): Entry
    requires WellFormed(e)
  {
    map[TextKey := e[TextKey], TagKey := if e[TagKey] == AITag then AITag else userId]
  }

  /**
   * Encoding a decoded snapshot rewrites it: every non-"AI" tag, whichever user
   * it named, is replaced by the current owner's id.
   */
  lemma {:induction false} EncodeDecode(entries: seq<Entry>, userId: string)
    requires DecodeEntries(entries).Ok?
    ensures var ms := DecodeEntries(entries).value;
      forall i :: 0 <= i < |entries| ==> WellFormed(entries[i]) && Encode(ms, userId)[i] == Retagged(entries[i], userId)
  {
    var ms := DecodeEntries(entries).value;
    forall i | 0 <= i < |entries|
      ensures WellFormed(entries[i]) && Encode(ms, userId)[i] == Retagged(entries[i], userId)
    {
      assert DecodesTo(entries[i], ms[i]);
    }
  }

  /** Decoding, encoding and decoding again gives what the first decode gave. */
  lemma {:induction false} DecodeIsStable(entries: seq<Entry>, userId: string)
    requires userId != AITag
    requires DecodeEntries(entries).Ok?
    ensures DecodeEntries(Encode(DecodeEntries(entries).value, userId)) == DecodeEntries(entries)
  {
    var ms := DecodeEntries(entries).value;
    assert forall i :: 0 <= i < |ms| ==> Conversational(ms[i]) by {
      forall i | 0 <= i < |ms| ensures Conversational(ms[i]) {
        assert DecodesTo(entries[i], ms[i]);
      }
    }
    RoundTrip(ms, userId);
  }

  /** Encoding works message by message: the records of `ms + [m]` are those of `ms`, then that of `m`. */
  lemma EncodeAppend(ms: seq<Message>, m: Message, userId: string)
    ensures Encode(ms + [m], userId) == Encode(ms, userId) + [EncodeMessage(m, userId)]
  {
    assert forall i :: 0 <= i < |ms| ==> (ms + [m])[i] == ms[i];
  }
}
