/**
 * The recency bot: every stored message becomes a text node stamped with a
 * `when` time, and a question is answered from the twenty most similar
 * nodes re-ordered most recent first, under a prompt that says so.
 */
module RecencyBot {
  import opened Wrappers
  import opened Slack
  import opened Dispatch
  import opened LlamaIndex
  import opened Classifier

  /** Both the similarity search and the recency post-processor keep twenty nodes. */
  const TopK: nat := 20

  /** The metadata key the post-processor sorts by, and under which each node's time is stored. */
  const DateKey := "when"

  /** The prompt up to and including the rule that closes the retrieved context. */
  const ContextPreamble :=
    "Your context is a series of chat messages. Each one is tagged with 'who:' \n"
    + "indicating who was speaking and 'when:' indicating when they said it, \n"
    + "followed by a line break and then what they said. There can be up to 20 chat messages.\n"
    + "The messages are sorted by recency, so the most recent one is first in the list.\n"
    + "The most recent messages should take precedence over older ones.\n"
    + "---------------------\n"
    + "{context_str}"
    + "\n---------------------\n"

  /** The prompt from the instruction to the question. */
  const QuestionCoda :=
    "You are a helpful AI assistant who has been listening to everything everyone has been saying. \n"
    + "Given the most relevant chat messages above, please answer this question: {query_str}\n"

  /** The question-answering template of `answer_question`. */
  const Template := ContextPreamble + QuestionCoda

  /**
   * What `answer_question` hands to the query engine: the query, the
   * template, the similarity top-k, the recency top-k and the date key.
   */
  datatype QueryPlan = QueryPlan(query: string, template: string, similarityTopK: nat, recencyTopK: nat, dateKey: string)

  function Plan(query: string): QueryPlan
  {
    QueryPlan(query, Template, TopK, TopK, DateKey)
  }

  /** The node built for an ordinary message, under a fresh id. */
  function NewNode(m: Message, platform: Platform, freshId: string): TextNode
  {
    TextNode(freshId, m.text, map[DateKey := platform.formatTime(m.ts)], None)
  }

  /** What `reply` does with one message. */
  function Handle(m: Message, botUserId: string, platform: Platform, freshId: string): Outcome<QueryPlan, TextNode>
  {
    match QuestionIn(m.blocks, botUserId)
    case Some(query) => Answered(Plan(query), Say)
    case None => Stored(NewNode(m, platform, freshId))
  }

  class Bot {
    const botUserId: string
    const platform: Platform
    const index: VectorIndex<TextNode>

    constructor (botUserId: string, platform: Platform, index: VectorIndex<TextNode>)
      ensures this.botUserId == botUserId && this.platform == platform && this.index == index
    {
      this.botUserId := botUserId;
      this.platform := platform;
      this.index := index;
    }

    /**
     * `reply`: answer a direct question and stop, or insert one node with
     * the message text and its formatted time. `freshId` stands for `uuid4()`.
     */
    method Reply(m: Message, freshId: string) returns (o: Outcome<QueryPlan, TextNode>)
      modifies index
      ensures o == Handle(m, botUserId, platform, freshId)
      ensures index.nodes == Commit(old(index.nodes), o)
    {
      var query := FindQuestion(m.blocks, botUserId);
      if query.Some? {
        o := Answered(Plan(query.value), Say);
        return;
      }
      var formattedTime := platform.formatTime(m.ts);
      var node := TextNode(freshId, m.text, map[DateKey := formattedTime], None);
      index.InsertNodes([node]);
      o := Stored(node);
    }
  }

  /**
   * A message that does not ask the bot a question is stored as one node
   * whose text is the message text and whose metadata has the single key
   * `when`, the key the recency ranking reads; no author is recorded.
   */
  lemma OrdinaryMessageStoresTimedNode(m: Message, botUserId: string, platform: Platform, freshId: string, store: seq<TextNode>)
    requires QuestionIn(m.blocks, botUserId).None?
    ensures var o := Handle(m, botUserId, platform, freshId);
      o.Stored? && Commit(store, o) == store + [o.record] &&
      o.record.text == m.text && o.record.metadata.Keys == {DateKey} &&
      o.record.metadata[DateKey] == platform.formatTime(m.ts) && o.record.previous.None?
  {
  }

  /**
   * There is no thread handling: a reply inside a thread started by the bot
   * is stored like any other message unless it is a direct question (a
   * section that mentions the bot and holds text).
   */
  lemma ThreadRepliesAreStored(m: Message, botUserId: string, platform: Platform, freshId: string)
    requires InThread(m) && m.parentUserId == Some(botUserId)
    requires QuestionIn(m.blocks, botUserId).None?
    ensures Handle(m, botUserId, platform, freshId) == Stored(NewNode(m, platform, freshId))
  {
  }

  /** A message with no blocks is always stored. */
  lemma NoBlocksIsStored(m: Message, botUserId: string, platform: Platform, freshId: string)
    requires m.blocks == []
    ensures Handle(m, botUserId, platform, freshId).Stored?
  {
  }

  /** A direct question is answered with the recency prompt and nothing is stored. */
  lemma QuestionIsAnsweredNotStored(m: Message, botUserId: string, platform: Platform, freshId: string, store: seq<TextNode>)
    requires QuestionIn(m.blocks, botUserId).Some?
    ensures var o := Handle(m, botUserId, platform, freshId);
      o == Answered(QueryPlan(QuestionIn(m.blocks, botUserId).value, Template, 20, 20, "when"), Say) &&
      Commit(store, o) == store
  {
  }
}
