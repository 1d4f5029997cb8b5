# llamabot message router, modelled in Dafny

This project models the `reply` handler of the llamabot Slack bot in its four
successive versions (`4_memory.py`, `5_qdrant.py`, `7_recency.py`,
`8_rest_of_the_owl.py`). Each version receives every message of a channel.
It decides whether the message is a question for the bot. A question is
answered from a vector index. Any other message is written into that index.

- `Slack` (`slack.dfy`) holds the message tree the handler walks: blocks,
  rich-text sections and their elements. It also holds `Platform`, the
  services the handler calls: the user lookup `get_user_name`, the timestamp
  formatting, and the thread transcript lookup `conversations_replies`.
- `Classifier` (`classifier.dfy`) is the mention search that all four
  versions share. `FindQuestion` keeps the code's four nested loops and its
  early return. It is proved equal to the function `QuestionIn`. Lemmas
  characterise `QuestionIn`: a message asks a question exactly when a section
  of a `rich_text` block mentions the bot and holds a text element, and the
  query is the first text element of the first such section.
- `Dispatch` (`dispatch.dfy`) gives the outcome of one message. The outcome is
  either `Answered`, with the request handed to the query engine and how the
  answer is delivered, or `Stored`, with the record inserted. It also proves
  that the index is append-only.
- `LlamaIndex` (`llama_index.dfy`) holds the documents and text nodes the
  handler builds, and `VectorIndex`, a class whose `nodes` field records every
  insert.
- `MemoryBot`, `QdrantBot`, `RecencyBot` and `OwlBot` are the four versions.
  Each has a `Handle` function saying what `reply` does with one message, and
  a `Bot` class whose `Reply` method does it, proved against `Handle`.
  `OwlBot.Bot` also carries the process-wide `previousNode` (`PREVIOUS_NODE`
  in the code). It builds the replies stanza with a loop, as the code does.
- `Evolution` (`evolution.dfy`) relates the four versions to each other.

Where the intended design of the bot and its code differ, this model follows
the code:
- The stored nodes are never linked into a timeline (see Findings).
- The `who` key holds the Slack user name (the first element of the lookup),
  not the display name.
- The thread transcript does follow the retrieved context, but not directly:
  the asker clause stands between them, and the closing instruction and the
  question come after the transcript.
- The version in `7_recency.py` stores no author, although its prompt tells
  the model that each message is tagged with `who:`.

## Model

| member | source | states |
|---|---|---|
| `Classifier.FindQuestion` | 8_rest_of_the_owl.py:123-135 | The nested loop over blocks, rich-text sections and elements, with its early return, yields exactly `QuestionIn(blocks, botUserId)`. |
| `Classifier.FirstText` | 8_rest_of_the_owl.py:129-132 | A section yields a text exactly when it holds a `text` element. That text belongs to a `text` element with none before it, wherever the mention stands. |
| `Classifier.FirstTextAt` | 8_rest_of_the_owl.py:129-132 | The first `text` element of a section is the one whose text the inner loop takes as the query. |
| `Classifier.QuestionInFlattens` | 7_recency.py:110-118 | Block boundaries do not matter: the search over blocks equals the search over the sections of the `rich_text` blocks, laid end to end. |
| `Classifier.SectionsQueryIsFirstQualifying` | 7_recency.py:113-125 | Over a list of sections: no query exactly when no section both mentions the bot and holds text. Otherwise the query is the first text of the first such section, in both directions. |
| `Classifier.QuestionIsFirstQualifyingSection` | 8_rest_of_the_owl.py:123-135 | A message is a direct question exactly when some `rich_text` section mentions the bot and holds text. The query is the first text of the first such section in message order. A section with a mention but no text does not stop the scan. |
| `Classifier.RichTextSectionsMembers` | 8_rest_of_the_owl.py:124-126 | The sections that are searched are exactly those inside blocks of type `rich_text`. |
| `Classifier.NonRichTextBlockIgnored` | 4_memory.py:62 | Inserting or removing a block of any other type anywhere in the message never changes the outcome. |
| `Classifier.AnswerNeedsBotMention` | 5_qdrant.py:85 | A question needs an element `User(botUserId)` inside a `rich_text` block. Mentions of other users never trigger an answer. |
| `Classifier.SectionsQueryNeedsMention` | 5_qdrant.py:84-88 | A query found among sections is the first text of a section that mentions the bot. |
| `Classifier.SectionsQueryAppend` | 4_memory.py:63-74 | Scanning two lists of sections one after the other gives the first list's query if it has one, else the second's. |
| `Classifier.TextBeforeMentionIsTheQuery` | 8_rest_of_the_owl.py:128-132 | In a section holding the text "what is new? " followed by a mention of the bot, the query is that text. |
| `Dispatch.ReplayAppendsStoredRecords` | 4_memory.py:73-76 | Handling a series of messages keeps every earlier record in place. It appends exactly the stored records, in arrival order. Answered messages add nothing. |
| `LlamaIndex.VectorIndex.constructor` | 4_memory.py:11 | A new index is empty. |
| `LlamaIndex.VectorIndex.Insert` | 5_qdrant.py:98 | `insert` appends one record and changes nothing else. |
| `LlamaIndex.VectorIndex.InsertNodes` | 7_recency.py:143 | `insert_nodes` appends the given nodes in order. |
| `MemoryBot.Bot.Reply` | 4_memory.py:60-76 | Answers exactly the direct questions, by `say`, without storing them. Otherwise it appends one document holding the message text verbatim and changes nothing else. |
| `MemoryBot.IndexHoldsOrdinaryTexts` | 4_memory.py:73-76 | After any series of messages, the index is its earlier contents followed by the raw texts of exactly the non-question messages, in order. |
| `MemoryBot.StoredRecordsAreOrdinaryTexts` | 4_memory.py:76 | The stored records of a series of messages are the documents of its non-question messages. |
| `QdrantBot.Bot.Reply` | 5_qdrant.py:80-98 | Answers exactly the direct questions, without storing them. Otherwise it appends one document `display_name + " said " + text`, using the second element of the lookup. |
| `QdrantBot.AuthorBoundaryIsLost` | 5_qdrant.py:96-97 | The stored text does not keep where the author ends: display name `a said b` with text `c` and display name `a` with text `b said c` give the same document. |
| `RecencyBot.Bot.Reply` | 7_recency.py:110-143 | Answers a direct question with the recency plan and stops. Otherwise it inserts exactly one node and leaves the earlier nodes unchanged. |
| `RecencyBot.OrdinaryMessageStoresTimedNode` | 7_recency.py:128-143 | A non-question message adds one node. Its text is the message text. Its metadata has the single key `when`, holding the formatted time, and it has no PREVIOUS link. |
| `RecencyBot.ThreadRepliesAreStored` | 7_recency.py:126-143 | There is no thread handling: a reply in the bot's own thread is stored unless it is a direct question (a section that mentions the bot and holds text). |
| `RecencyBot.NoBlocksIsStored` | 7_recency.py:110 | A message without blocks is always stored. |
| `RecencyBot.QuestionIsAnsweredNotStored` | 7_recency.py:55-78 | A direct question is answered by `say` with the fixed template, top-k 20 for both similarity and recency, and date key `when`. The index is unchanged. |
| `OwlBot.Bot.constructor` | 8_rest_of_the_owl.py:22 | The previous node starts as None. |
| `OwlBot.Bot.BuildRepliesStanza` | 8_rest_of_the_owl.py:62-66 | The `+=` loop builds exactly `RepliesStanza`: empty without replies, else the header and one `name: text` line per reply. |
| `OwlBot.Bot.AnswerQuestion` | 8_rest_of_the_owl.py:60-91 | The request uses the asker's user name, the replies stanza, the spliced template, top-k 20 and date key `when`. |
| `OwlBot.Bot.Reply` | 8_rest_of_the_owl.py:110-177 | Follows `Handle`: appends at most one node and updates the previous node only when one is already set. A previous node that is None stays None, and the stored node then has no link. |
| `OwlBot.DirectQuestionTakesPriority` | 8_rest_of_the_owl.py:123-152 | A direct question (a section that mentions the bot and holds a `text` element) is answered by `say`, with an empty stanza, even when the message is a reply in the bot's thread. |
| `OwlBot.ThreadReplyToBotIsAnsweredInThread` | 8_rest_of_the_owl.py:138-152 | A thread reply whose parent author is the bot and that is not a direct question asks the whole message text. Its prompt carries the fetched transcript. The answer goes to the same channel and thread. Neither the index nor the previous node changes. |
| `OwlBot.OrdinaryMessageStoresOneNode` | 8_rest_of_the_owl.py:153-176 | Any other message, including a thread reply to someone else, adds exactly one node. It has the fresh id and the message text, and its metadata is exactly `{who: user name, when: formatted time}`. |
| `OwlBot.PreviousNodeStaysNone` | 8_rest_of_the_owl.py:172-174 | From the initial None, the previous node stays None over any series of messages. No stored node carries a PREVIOUS link, and earlier nodes are kept. |
| `OwlBot.SecondNodeIsNotLinked` | 8_rest_of_the_owl.py:172-174 | Two ordinary messages in a row: the second node does not link to the first. |
| `OwlBot.LinkedTimelineFollowsIngestOrder` | 8_rest_of_the_owl.py:172-174 | With the update moved out of the test, each new node links to the node stored just before it. The first links to the starting previous node, and the last stored node becomes the previous node. |
| `OwlBot.ReplyLinesAppend` | 8_rest_of_the_owl.py:65-66 | The transcript of two runs of replies is the first run's lines followed by the second's. |
| `OwlBot.ReplyLinesInOrder` | 8_rest_of_the_owl.py:62-66 | The stanza is the header, the lines of replies 0 to k-1, the line of reply k, then the rest, in thread order. |
| `OwlBot.StanzaFollowsAskerClause` | 8_rest_of_the_owl.py:67-80 | The prompt is the recency prompt cut after the retrieved context, with the asker clause, the stanza and a blank line inserted at the cut. Without a thread the stanza is empty. |
| `OwlBot.ReplyTextEntersTemplate` | 8_rest_of_the_owl.py:64-81 | The text of every thread reply stands verbatim in the template string handed to `PromptTemplate`, at the offset after the preamble, the asker clause, the header, the earlier lines and its author's name. |
| `Evolution.DirectQuestionsAnsweredAlike` | 8_rest_of_the_owl.py:123-152 | The first three versions answer the same messages with the same query, by `say`. The last answers those too, and any other message it answers is a reply in the bot's thread, posted into that thread. |
| `Evolution.StoredRecordsAcrossVersions` | 8_rest_of_the_owl.py:153-176 | For a non-question, the versions store the text verbatim, then `display_name said text`, then a node with the same text and only `when`. The last adds `who` to that node's metadata, unless the message is a thread reply to the bot. |

## Left out

- The query engine, the embeddings, the Qdrant storage and the recency post-processor are library code. An answered message carries the request it hands over (query, template, top-k, date key) and how the answer is delivered. The answer text is not modelled.
- The Slack Web API calls (`users_info`, `conversations_replies`, `chat_postMessage`, `say`) are modelled as total functions in `Platform` or as the `Delivery` of an outcome. Failures of these calls are not modelled.
- Timestamp conversion (`datetime.fromtimestamp` and `strftime`) involves floats and the local time zone. It is modelled as the function `Platform.formatTime`.
- `uuid.uuid4()` is modelled as a `freshId` argument. Uniqueness of ids is not modelled.
- Exceptions for missing keys are not modelled. Every block and section has its element list, every text element has its text, and every message has `text`, `user`, `ts` and `channel`. A missing `blocks` key is modelled as the empty list, which the code treats the same way.
- Flask's challenge route, the channel lookup and join, `auth_test`, `print` and the debug handler are left out. The bot id is a constructor argument.
- `OwlBot.Template`: the asker's user name and the text of every thread reply are pasted into a string that the library then reads as a format template with `{context_str}` and `{query_str}` placeholders. A brace or a placeholder in that user text can break the template or change the prompt. The model treats the template as a plain string, so `OwlBot.ThreadReplyToBotIsAnsweredInThread` and `OwlBot.Bot.AnswerQuestion` say what is handed over, not that formatting it succeeds. `OwlBot.ReplyTextEntersTemplate` shows that reply text lands verbatim in the template.
- The second version's stored text loses the boundary between author and message, since names and texts may contain `" said "` (`QdrantBot.AuthorBoundaryIsLost`). The model records this and does not promise that a document can be split back into author and text.
- Concurrency is left out. Messages are handled one at a time, and the index and the previous node are not shared between processes.
- The four versions' identical inline loop is modelled once, as `Classifier.FindQuestion`, which each `Reply` calls.

## Findings

| source | as written | input that shows it | evidently intended | confidence | as-written member | corrected member |
|---|---|---|---|---|---|---|
| 8_rest_of_the_owl.py:172-174 | The assignment of the new node to `PREVIOUS_NODE` is inside the test that `PREVIOUS_NODE` is not None. Starting from None, it is never set, so no node is ever linked. | Two ordinary messages after start-up: the second node has no PREVIOUS link to the first. | Every stored node links to the one stored before it, and then becomes the previous node. | high; not executed | `OwlBot.PreviousNodeStaysNone` | `OwlBot.LinkedTimelineFollowsIngestOrder` |

The handler model (`OwlBot.Bot.Reply`, `OwlBot.Handle`, `OwlBot.PreviousAfter`)
keeps the code's behaviour as written. The corrected update is
`OwlBot.LinkedPreviousAfter`, and the corrected series of messages is
`OwlBot.LinkedIngest`.
