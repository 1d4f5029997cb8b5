/**
 * How the four versions of the handler relate: they share the direct
 * question test, differ in what they store, and only the last one answers
 * replies in the bot's threads.
 */
module Evolution {
  import opened Wrappers
  import opened Slack
  import opened Dispatch
  import opened LlamaIndex
  import opened Classifier
  import MemoryBot
  import QdrantBot
  import RecencyBot
  import OwlBot

  /**
   * The first three versions answer exactly the same messages with the
   * same query, by `say`; the last answers all of those the same way, and
   * any further message it answers is a reply in a thread the bot started,
   * answered inside that thread.
   */
  lemma DirectQuestionsAnsweredAlike(m: Message, botUserId: string, platform: Platform,
                                     previous: Option<TextNode>, freshId: string)
    ensures var memory := MemoryBot.Handle(m, botUserId);
      var qdrant := QdrantBot.Handle(m, botUserId, platform);
      var recency := RecencyBot.Handle(m, botUserId, platform, freshId);
      var owl := OwlBot.Handle(m, botUserId, platform, previous, freshId);
      (memory.Answered? <==> qdrant.Answered?) && (memory.Answered? <==> recency.Answered?) &&
      (memory.Answered? ==>
         owl.Answered? && memory.delivery == qdrant.delivery == recency.delivery == owl.delivery == Say &&
         memory.request == qdrant.request == recency.request.query == owl.request.query) &&
      (owl.Answered? && memory.Stored? ==>
         InThread(m) && m.parentUserId == Some(botUserId) && owl.delivery == PostInThread(m.channel, m.threadTs.value))
  {
  }

  /**
   * On a message that is not a direct question, every version stores one
   * record built from the same message text: verbatim in the first,
   * prefixed with the display name in the second, as a node with only a
   * time in the third; the last adds the user name to that node's
   * metadata, unless the message is a reply in one of the bot's threads.
   */
  lemma StoredRecordsAcrossVersions(m: Message, botUserId: string, platform: Platform, freshId: string)
    requires MemoryBot.Handle(m, botUserId).Stored?
    ensures var memory := MemoryBot.Handle(m, botUserId).record;
      var qdrant := QdrantBot.Handle(m, botUserId, platform);
      var recency := RecencyBot.Handle(m, botUserId, platform, freshId);
      var owl := OwlBot.Handle(m, botUserId, platform, None, freshId);
      memory.text == m.text &&
      qdrant.Stored? && qdrant.record.text == platform.lookupUser(m.user).displayName + " said " + memory.text &&
      recency.Stored? && recency.record.text == memory.text &&
      (!(InThread(m) && m.parentUserId == Some(botUserId)) ==>
         owl.Stored? &&
         owl.record == recency.record.(metadata := recency.record.metadata[OwlBot.WhoKey := platform.lookupUser(m.user).name]))
  {
  }
}
