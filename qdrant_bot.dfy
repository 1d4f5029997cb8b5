/**
 * The persistent-store bot: as the in-memory bot, but a stored message is
 * prefixed with its author's display name, "<display name> said <text>".
 */
module QdrantBot {
  import opened Wrappers
  import opened Slack
  import opened Dispatch
  import opened LlamaIndex
  import opened Classifier

  /** The text stored for an ordinary message, built from the display name (second element of the lookup). */
  function StoredText(m: Message, platform: Platform): string
  {
    platform.lookupUser(m.user).displayName + " said " + m.text
  }

  /** What `reply` does with one message; the request is the bare query. */
  function Handle(m: Message, botUserId: string, platform: Platform): Outcome<string, Document>
  {
    match QuestionIn(m.blocks, botUserId)
    case Some(query) => Answered(query, Say)
    case None => Stored(Document(StoredText(m, platform)))
  }

  class Bot {
    const botUserId: string
    const platform: Platform
    const index: VectorIndex<Document>

    constructor (botUserId: string, platform: Platform, index: VectorIndex<Document>)
      ensures this.botUserId == botUserId && this.platform == platform && this.index == index
    {
      this.botUserId := botUserId;
      this.platform := platform;
      this.index := index;
    }

    /** `reply`: answer a direct question and stop, or store "<display name> said <text>". */
    method Reply(m: Message) returns (o: Outcome<string, Document>)
      modifies index
      ensures o == Handle(m, botUserId, platform)
      ensures index.nodes == Commit(old(index.nodes), o)
    {
      var query := FindQuestion(m.blocks, botUserId);
      if query.Some? {
        o := Answered(query.value, Say);
        return;
      }
      var names := platform.lookupUser(m.user);
      var text := names.displayName + " said " + m.text;
      index.Insert(Document(text));
      o := Stored(Document(text));
    }
  }

  /**
   * The stored text does not keep the boundary between author and message:
   * a display name and a text that both contain " said " can give the same
   * document as another author and text.
   */
  lemma AuthorBoundaryIsLost(platform: Platform, m1: Message, m2: Message)
    requires platform.lookupUser(m1.user).displayName == "a said b" && m1.text == "c"
    requires platform.lookupUser(m2.user).displayName == "a" && m2.text == "b said c"
    ensures StoredText(m1, platform) == StoredText(m2, platform)
    ensures platform.lookupUser(m1.user).displayName != platform.lookupUser(m2.user).displayName && m1.text != m2.text
  {
  }
}
