/**
 * The persistence layer that `ask_sherlock` talks to (the `db` module).  Its
 * own code is not part of this model; it is modelled only as the state the
 * three calls made by `ask_sherlock` read and write: one snapshot per user id
 * and an append-only message log.
 */
module ConversationStore {
  import opened Wrappers
  import opened ContextCodec

  /** One row of the message log: who the turn belongs to, the text and its tag. */
  datatype LogRecord = LogRecord(userId: string, text: string, tag: string)

  /** A call made on the store, in the order `ask_sherlock` makes them. */
  datatype StoreCall =
    | GetLastContext(userId: string)
    | SaveMessage(userId: string, text: string, tag: string)
    | UpdateUserLastOutput(userId: string, snapshot: seq<Entry>)

  class Store {
    /** The latest snapshot written for each user id. */
    var snapshots: map<string, seq<Entry>>
    /** The message log, oldest record first; only ever appended to. */
    var log: seq<LogRecord>
    /** Every call made on the store so far, oldest first. */
    ghost var calls: seq<StoreCall>

    constructor ()
      ensures snapshots == map[] && log == [] && calls == []
    {
      snapshots := map[];
      log := [];
      calls := [];
    }

    /** The snapshot stored for `userId`, or `None` for a user who has none yet. */
    function LastContext(userId: string): (r: Option<seq<Entry>>)
      reads this
      ensures r.Some? <==> userId in snapshots
      ensures r.Some? ==> r.value == snapshots[userId]
    {
      if userId in snapshots then Some(snapshots[userId]) else None
    }

    /** `db.get_last_context`: reads the snapshot and changes nothing else. */
    method GetLastContextOf(userId: string) returns (r: Option<seq<Entry>>)
      modifies this`calls
      ensures r == LastContext(userId)
      ensures calls == old(calls) + [GetLastContext(userId)]
    {
      r := LastContext(userId);
      calls := calls + [GetLastContext(userId)];
    }

    /** `db.save_message_to_database`: appends one record to the log. */
    method SaveMessageToDatabase(userId: string, text: string, tag: string)
      modifies this`log, this`calls
      ensures log == old(log) + [LogRecord(userId, text, tag)]
      ensures calls == old(calls) + [SaveMessage(userId, text, tag)]
    {
      log := log + [LogRecord(userId, text, tag)];
      calls := calls + [SaveMessage(userId, text, tag)];
    }

    /** `db.update_user_last_output`: replaces the snapshot of `userId` and no other. */
    method UpdateUserLastOutputOf(userId: string, snapshot: seq<Entry>)
      modifies this`snapshots, this`calls
      ensures snapshots == old(snapshots)[userId := snapshot]
      ensures LastContext(userId) == Some(snapshot)
      ensures forall other :: other != userId ==> LastContext(other) == old(LastContext(other))
      ensures calls == old(calls) + [UpdateUserLastOutput(userId, snapshot)]
    {
      snapshots := snapshots[userId := snapshot];
      calls := calls + [UpdateUserLastOutput(userId, snapshot)];
    }
  }
}
