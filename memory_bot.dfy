/**
 * The in-memory bot: a question to the bot is answered from the index, any
 * other message is stored as a document holding its raw text.
 */
module MemoryBot {
  import opened Wrappers
  import opened Slack
  import opened Dispatch
  import opened LlamaIndex
  import opened Classifier

  /** What `reply` does with one message; the request is the bare query. */
  function Handle(m: Message, botUserId: string): Outcome<string, Document>
  {
    match QuestionIn(m.blocks, botUserId)
    case Some(query) => Answered(query, Say)
    case None => Stored(Document(m.text))
  }

  /** The outcomes of handling messages in arrival order. */
  function HandleAll(msgs: seq<Message>, botUserId: string): seq<Outcome<string, Document>>
  {
    if msgs == [] then [] else [Handle(msgs[0], botUserId)] + HandleAll(msgs[1..], botUserId)
  }

  /** The raw texts of the messages that do not ask the bot a question, as documents. */
  function OrdinaryDocuments(msgs: seq<Message>, botUserId: string): seq<Document>
  {
    if msgs == [] then []
    else (if QuestionIn(msgs[0].blocks, botUserId).None? then [Document(msgs[0].text)] else [])
         + OrdinaryDocuments(msgs[1..], botUserId)
  }

  class Bot {
    const botUserId: string
    const index: VectorIndex<Document>

    constructor (botUserId: string, index: VectorIndex<Document>)
      ensures this.botUserId == botUserId && this.index == index
    {
      this.botUserId := botUserId;
      this.index := index;
    }

    /** `reply`: answer a direct question and stop, or store the message text. */
    method Reply(m: Message) returns (o: Outcome<string, Document>)
      modifies index
      ensures o == Handle(m, botUserId)
      ensures index.nodes == Commit(old(index.nodes), o)
      ensures o.Answered? <==> QuestionIn(m.blocks, botUserId).Some?
      ensures o.Stored? ==> index.nodes == old(index.nodes) + [Document(m.text)]
    {
      var query := FindQuestion(m.blocks, botUserId);
      if query.Some? {
        o := Answered(query.value, Say);
        return;
      }
      index.Insert(Document(m.text));
      o := Stored(Document(m.text));
    }
  }

  /**
   * After any series of messages the index holds what it held before,
   * followed by the raw text of every message that was not a question to the
   * bot, in arrival order: one document per such message, none for a question.
   */
  lemma {:induction false} IndexHoldsOrdinaryTexts(store: seq<Document>, msgs: seq<Message>, botUserId: string)
    ensures Replay(store, HandleAll(msgs, botUserId)) == store + OrdinaryDocuments(msgs, botUserId)
  {
    ReplayAppendsStoredRecords(store, HandleAll(msgs, botUserId));
    StoredRecordsAreOrdinaryTexts(msgs, botUserId);
  }

  lemma {:induction false} StoredRecordsAreOrdinaryTexts(msgs: seq<Message>, botUserId: string)
    ensures StoredRecords(HandleAll(msgs, botUserId)) == OrdinaryDocuments(msgs, botUserId)
  {
    if msgs != [] {
      StoredRecordsAreOrdinaryTexts(msgs[1..], botUserId);
      assert HandleAll(msgs, botUserId)[1..] == HandleAll(msgs[1..], botUserId);
    }
  }
}
