/**
 * What the handler does with one message: answer it (and how the answer is
 * delivered) or store one record in the index. The index only ever grows.
 */
module Dispatch {

  /** `say` answers in the channel; `chat_postMessage` with `thread_ts` answers inside the thread. */
  datatype Delivery = Say | PostInThread(channel: string, threadTs: string)

  /**
   * The result of handling one message. `request` is what is handed to the
   * query engine; the answer text itself comes from a language model and is
   * not modelled.
   */
  datatype Outcome<Q, R> = Answered(request: Q, delivery: Delivery) | Stored(record: R)

  /** The index contents after one handled message. */
  function Commit<Q, R>(store: seq<R>, o: Outcome<Q, R>): seq<R>
  {
    if o.Stored? then store + [o.record] else store
  }

  /** The index contents after handling a series of messages one after another. */
  function Replay<Q, R>(store: seq<R>, outcomes: seq<Outcome<Q, R>>): seq<R>
    decreases |outcomes|
  {
    if outcomes == [] then store else Replay(Commit(store, outcomes[0]), outcomes[1..])
  }

  /** The records that the stored outcomes carry, in order. */
  function StoredRecords<Q, R>(outcomes: seq<Outcome<Q, R>>): seq<R>
  {
    if outcomes == [] then []
    else (if outcomes[0].Stored? then [outcomes[0].record] else []) + StoredRecords(outcomes[1..])
  }

  /**
   * The index is append-only: replaying handled messages keeps every earlier
   * record where it was and adds exactly the stored records, in arrival order.
   */
  lemma {:induction false} ReplayAppendsStoredRecords<Q, R>(store: seq<R>, outcomes: seq<Outcome<Q, R>>)
    ensures Replay(store, outcomes) == store + StoredRecords(outcomes)
    decreases |outcomes|
  {
    if outcomes != [] {
      ReplayAppendsStoredRecords(Commit(store, outcomes[0]), outcomes[1..]);
      assert Commit(store, outcomes[0]) + StoredRecords(outcomes[1..])
          == store + ((if outcomes[0].Stored? then [outcomes[0].record] else []) + StoredRecords(outcomes[1..]));
    }
  }
}
