/**
 * The final bot. On top of the recency bot it answers replies in threads
 * the bot started, tells the language model who is asking and, for a
 * thread, the whole chain of replies, and stores the author's user name
 * with each node. It also keeps a process-wide "previous node" meant to
 * chain the stored nodes into a timeline.
 */
module OwlBot {
  import opened Wrappers
  import opened Slack
  import opened Dispatch
  import opened LlamaIndex
  import opened Classifier
  import RecencyBot

  /** The metadata key for the author's user name. */
  const WhoKey := "who"

  /** How `reply` classifies a message. */
  datatype Route =
    | DirectQuestion(query: string)
    | ThreadedReply(query: string, channel: string, threadTs: string)
    | OrdinaryMessage

  /**
   * A direct question (a section that mentions the bot and holds text)
   * decides first; otherwise a message in a thread
   * whose parent was written by the bot is a question made of its whole text.
   */
  function RouteOf(m: Message, botUserId: string): Route
  {
    match QuestionIn(m.blocks, botUserId)
    case Some(query) => DirectQuestion(query)
    case None =>
      if InThread(m) && m.parentUserId == Some(botUserId) then ThreadedReply(m.text, m.channel, m.threadTs.value)
      else OrdinaryMessage
  }

  const RepliesHeader :=
    "In addition to the context above, the question you're about to answer has been discussed in the following chain of replies:\n"

  /** One line of the transcript: the author's user name, a colon, the text. */
  function ReplyLine(reply: ThreadMessage, platform: Platform): string
  {
    platform.lookupUser(reply.user).name + ": " + reply.text + "\n"
  }

  /** The transcript lines, grown at the end one reply at a time as the loop does. */
  function ReplyLines(replies: seq<ThreadMessage>, platform: Platform): string
    decreases |replies|
  {
    if replies == [] then ""
    else ReplyLines(replies[..|replies| - 1], platform) + ReplyLine(replies[|replies| - 1], platform)
  }

  /** Empty without a thread; otherwise the header followed by one line per reply. */
  function RepliesStanza(replies: Option<seq<ThreadMessage>>, platform: Platform): string
  {
    match replies
    case None => ""
    case Some(rs) => RepliesHeader + ReplyLines(rs, platform)
  }

  /** The sentence that names the asker. */
  function AskerClause(who: string): string
  {
    "The person who is asking the question is called '" + who + "'.\n"
  }

  /**
   * The question-answering template: the recency bot's prompt with the
   * asker clause, the replies stanza and a blank line spliced in after the
   * retrieved context.
   */
  function Template(who: string, stanza: string): string
  {
    RecencyBot.ContextPreamble + AskerClause(who) + stanza + "\n" + RecencyBot.QuestionCoda
  }

  /** What `answer_question` hands to the query engine. */
  function Plan(query: string, m: Message, replies: Option<seq<ThreadMessage>>, platform: Platform): RecencyBot.QueryPlan
  {
    RecencyBot.QueryPlan(query, Template(platform.lookupUser(m.user).name, RepliesStanza(replies, platform)),
                         RecencyBot.TopK, RecencyBot.TopK, RecencyBot.DateKey)
  }

  /**
   * The node built for an ordinary message: its text, the author's user
   * name under `who`, the formatted time under `when`, and a PREVIOUS link
   * to `previous` when there is one.
   */
  function NewNode(m: Message, platform: Platform, freshId: string, previous: Option<TextNode>): TextNode
  {
    TextNode(freshId, m.text,
             map[WhoKey := platform.lookupUser(m.user).name, RecencyBot.DateKey := platform.formatTime(m.ts)],
             if previous.Some? then Some(previous.value.id) else None)
  }

  /** What `reply` does with one message, given the current previous node. */
  function Handle(m: Message, botUserId: string, platform: Platform, previous: Option<TextNode>, freshId: string)
    : Outcome<RecencyBot.QueryPlan, TextNode>
  {
    match RouteOf(m, botUserId)
    case DirectQuestion(query) => Answered(Plan(query, m, None, platform), Say)
    case ThreadedReply(query, channel, threadTs) =>
      Answered(Plan(query, m, Some(platform.fetchReplies(channel, threadTs)), platform), PostInThread(channel, threadTs))
    case OrdinaryMessage => Stored(NewNode(m, platform, freshId, previous))
  }

  /**
   * The previous node after one message, as the code updates it: only
   * inside the test that a previous node already exists.
   */
  function PreviousAfter(previous: Option<TextNode>, o: Outcome<RecencyBot.QueryPlan, TextNode>): Option<TextNode>
  {
    if o.Stored? && previous.Some? then Some(o.record) else previous
  }

  /** The index and the previous node after a series of messages, each with its fresh node id. */
  function Ingest(store: seq<TextNode>, previous: Option<TextNode>, msgs: seq<Message>, ids: seq<string>,
                  botUserId: string, platform: Platform): (seq<TextNode>, Option<TextNode>)
    requires |ids| == |msgs|
    decreases |msgs|
  {
    if msgs == [] then (store, previous)
    else
      var o := Handle(msgs[0], botUserId, platform, previous, ids[0]);
      Ingest(Commit(store, o), PreviousAfter(previous, o), msgs[1..], ids[1..], botUserId, platform)
  }

  class Bot {
    const botUserId: string
    const platform: Platform
    const index: VectorIndex<TextNode>
    var previousNode: Option<TextNode>

    constructor (botUserId: string, platform: Platform, index: VectorIndex<TextNode>)
      ensures this.botUserId == botUserId && this.platform == platform && this.index == index
      ensures previousNode == None
    {
      this.botUserId := botUserId;
      this.platform := platform;
      this.index := index;
      previousNode := None;
    }

    /** `replies_stanza`, built with `+=` over the thread's messages. */
    method BuildRepliesStanza(replies: Option<seq<ThreadMessage>>) returns (stanza: string)
      ensures stanza == RepliesStanza(replies, platform)
    {
      stanza := "";
      if replies.Some? {
        var rs := replies.value;
        stanza := RepliesHeader;
        var i := 0;
        while i < |rs|
          invariant 0 <= i <= |rs|
          invariant stanza == RepliesHeader + ReplyLines(rs[..i], platform)
        {
          var names := platform.lookupUser(rs[i].user);
          stanza := stanza + names.name + ": " + rs[i].text + "\n";
          assert rs[..i + 1][..i] == rs[..i];
          i := i + 1;
        }
        assert rs[..|rs|] == rs;
      }
    }

    /** `answer_question`: look up the asker, build the stanza and the template. */
    method AnswerQuestion(query: string, m: Message, replies: Option<seq<ThreadMessage>>) returns (plan: RecencyBot.QueryPlan)
      ensures plan == Plan(query, m, replies, platform)
    {
      var whoIsAsking := platform.lookupUser(m.user).name;
      var stanza := BuildRepliesStanza(replies);
      plan := RecencyBot.QueryPlan(query, Template(whoIsAsking, stanza), RecencyBot.TopK, RecencyBot.TopK, RecencyBot.DateKey);
    }

    /**
     * `reply`: a direct question is answered with `say`; a reply in a thread
     * the bot started is answered inside that thread; any other message is
     * stored as one node. `freshId` stands for `uuid4()`.
     */
    method Reply(m: Message, freshId: string) returns (o: Outcome<RecencyBot.QueryPlan, TextNode>)
      modifies this, index
      ensures o == Handle(m, botUserId, platform, old(previousNode), freshId)
      ensures previousNode == PreviousAfter(old(previousNode), o)
      ensures index.nodes == Commit(old(index.nodes), o)
      ensures old(previousNode) == None ==> previousNode == None && (o.Stored? ==> o.record.previous == None)
    {
      var query := FindQuestion(m.blocks, botUserId);
      if query.Some? {
        var plan := AnswerQuestion(query.value, m, None);
        o := Answered(plan, Say);
        return;
      }
      if InThread(m) {
        if m.parentUserId == Some(botUserId) {
          var threadTs := m.threadTs.value;
          var replies := platform.fetchReplies(m.channel, threadTs);
          var plan := AnswerQuestion(m.text, m, Some(replies));
          o := Answered(plan, PostInThread(m.channel, threadTs));
          return;
        }
      }
      var names := platform.lookupUser(m.user);
      var formattedTime := platform.formatTime(m.ts);
      var node := TextNode(freshId, m.text, map[WhoKey := names.name, RecencyBot.DateKey := formattedTime], None);
      if previousNode.Some? {
        node := node.(previous := Some(previousNode.value.id));
        previousNode := Some(node);
      }
      index.InsertNodes([node]);
      o := Stored(node);
    }
  }

  /**
   * A direct question (a section that mentions the bot and holds a `text`
   * element) wins over the thread test: the answer goes out with `say`,
   * never into the thread.
   */
  lemma DirectQuestionTakesPriority(m: Message, botUserId: string, platform: Platform, previous: Option<TextNode>, freshId: string)
    requires QuestionIn(m.blocks, botUserId).Some?
    ensures var o := Handle(m, botUserId, platform, previous, freshId);
      o.Answered? && o.delivery == Say && o.request.query == QuestionIn(m.blocks, botUserId).value &&
      o.request.template == Template(platform.lookupUser(m.user).name, "")
  {
  }

  /**
   * A reply in a thread the bot started asks the whole message text; the
   * prompt carries the thread's transcript, the answer is posted into the
   * same thread of the same channel, and nothing is stored or relinked.
   */
  lemma ThreadReplyToBotIsAnsweredInThread(m: Message, botUserId: string, platform: Platform,
                                           previous: Option<TextNode>, freshId: string, store: seq<TextNode>)
    requires QuestionIn(m.blocks, botUserId).None?
    requires InThread(m) && m.parentUserId == Some(botUserId)
    ensures var o := Handle(m, botUserId, platform, previous, freshId);
      o.Answered? && o.request.query == m.text &&
      o.delivery == PostInThread(m.channel, m.threadTs.value) &&
      o.request.template == Template(platform.lookupUser(m.user).name,
                                     RepliesStanza(Some(platform.fetchReplies(m.channel, m.threadTs.value)), platform)) &&
      Commit(store, o) == store && PreviousAfter(previous, o) == previous
  {
  }

  /**
   * A message that is not a question and not a reply in one of the bot's
   * threads (a thread reply to anyone else included) is stored as exactly
   * one node: the message text, and metadata with exactly the author's
   * user name (not the display name) under `who` and the time under `when`.
   */
  lemma OrdinaryMessageStoresOneNode(m: Message, botUserId: string, platform: Platform,
                                     previous: Option<TextNode>, freshId: string, store: seq<TextNode>)
    requires QuestionIn(m.blocks, botUserId).None?
    requires !(InThread(m) && m.parentUserId == Some(botUserId))
    ensures var o := Handle(m, botUserId, platform, previous, freshId);
      o.Stored? && Commit(store, o) == store + [o.record] &&
      o.record.id == freshId && o.record.text == m.text &&
      o.record.metadata.Keys == {"who", "when"} &&
      o.record.metadata["who"] == platform.lookupUser(m.user).name &&
      o.record.metadata["when"] == platform.formatTime(m.ts)
  {
  }

  /**
   * The previous node starts as None and the code only reassigns it when it
   * is already set, so it stays None for any series of messages and no
   * stored node ever links to an earlier one.
   */
  lemma {:induction false} PreviousNodeStaysNone(store: seq<TextNode>, msgs: seq<Message>, ids: seq<string>,
                                                 botUserId: string, platform: Platform)
    requires |ids| == |msgs|
    ensures var r := Ingest(store, None, msgs, ids, botUserId, platform);
      r.1 == None && |store| <= |r.0| && r.0[..|store|] == store &&
      forall k :: |store| <= k < |r.0| ==> r.0[k].previous == None
    decreases |msgs|
  {
    if msgs != [] {
      var o := Handle(msgs[0], botUserId, platform, None, ids[0]);
      PreviousNodeStaysNone(Commit(store, o), msgs[1..], ids[1..], botUserId, platform);
    }
  }

  /** Two ordinary messages in a row: the second node is not linked to the first. */
  lemma SecondNodeIsNotLinked(m1: Message, m2: Message, id1: string, id2: string, botUserId: string, platform: Platform)
    requires RouteOf(m1, botUserId).OrdinaryMessage? && RouteOf(m2, botUserId).OrdinaryMessage?
    ensures var nodes := Ingest([], None, [m1, m2], [id1, id2], botUserId, platform).0;
      |nodes| == 2 && nodes[0].id == id1 && nodes[1].previous == None
  {
    var n1 := NewNode(m1, platform, id1, None);
    var n2 := NewNode(m2, platform, id2, None);
    assert [m1, m2][1..] == [m2];
    assert [id1, id2][1..] == [id2];
    assert Handle(m1, botUserId, platform, None, id1) == Stored(n1);
    assert Handle(m2, botUserId, platform, None, id2) == Stored(n2);
    assert [m2][1..] == [] && [id2][1..] == [];
    assert Commit([n1], Handle(m2, botUserId, platform, None, id2)) == [n1, n2];
    assert Ingest([n1], None, [m2], [id2], botUserId, platform) == ([n1, n2], None);
    assert Commit([], Handle(m1, botUserId, platform, None, id1)) == [n1];
    assert PreviousAfter(None, Handle(m1, botUserId, platform, None, id1)) == None;
    assert Ingest([], None, [m1, m2], [id1, id2], botUserId, platform)
        == Ingest([n1], None, [m2], [id2], botUserId, platform);
  }

  /** The evidently intended update: every stored node becomes the previous node. */
  function LinkedPreviousAfter(previous: Option<TextNode>, o: Outcome<RecencyBot.QueryPlan, TextNode>): Option<TextNode>
  {
    if o.Stored? then Some(o.record) else previous
  }

  /** Ingest with the intended update of the previous node. */
  function LinkedIngest(store: seq<TextNode>, previous: Option<TextNode>, msgs: seq<Message>, ids: seq<string>,
                        botUserId: string, platform: Platform): (seq<TextNode>, Option<TextNode>)
    requires |ids| == |msgs|
    decreases |msgs|
  {
    if msgs == [] then (store, previous)
    else
      var o := Handle(msgs[0], botUserId, platform, previous, ids[0]);
      LinkedIngest(Commit(store, o), LinkedPreviousAfter(previous, o), msgs[1..], ids[1..], botUserId, platform)
  }

  /**
   * With the intended update the PREVIOUS links reproduce the order of
   * ingestion: the first new node links to the node that was previous at
   * the start, each later one to the node stored just before it, and the
   * last stored node is the previous node at the end.
   */
  lemma {:induction false} LinkedTimelineFollowsIngestOrder(store: seq<TextNode>, previous: Option<TextNode>,
                                                           msgs: seq<Message>, ids: seq<string>,
                                                           botUserId: string, platform: Platform)
    requires |ids| == |msgs|
    ensures var r := LinkedIngest(store, previous, msgs, ids, botUserId, platform);
      |store| <= |r.0| && r.0[..|store|] == store &&
      (|store| < |r.0| ==> r.0[|store|].previous == (if previous.Some? then Some(previous.value.id) else None)) &&
      (forall k :: |store| < k < |r.0| ==> r.0[k].previous == Some(r.0[k - 1].id)) &&
      r.1 == (if |store| < |r.0| then Some(r.0[|r.0| - 1]) else previous)
    decreases |msgs|
  {
    if msgs != [] {
      var o := Handle(msgs[0], botUserId, platform, previous, ids[0]);
      var store' := Commit(store, o);
      var previous' := LinkedPreviousAfter(previous, o);
      LinkedTimelineFollowsIngestOrder(store', previous', msgs[1..], ids[1..], botUserId, platform);
      var r := LinkedIngest(store', previous', msgs[1..], ids[1..], botUserId, platform);
      if o.Stored? {
        assert r.0[..|store'|] == store';
        assert r.0[|store|] == store'[|store|] == o.record;
        assert r.0[..|store|] == store'[..|store|] == store;
      }
    }
  }

  /** Line k of the transcript is reply k's line, with the earlier replies' lines before it and the later ones after. */
  lemma {:induction false} ReplyLinesAppend(a: seq<ThreadMessage>, b: seq<ThreadMessage>, platform: Platform)
    ensures ReplyLines(a + b, platform) == ReplyLines(a, platform) + ReplyLines(b, platform)
    decreases |b|
  {
    if b == [] {
      assert a + b == a;
    } else {
      var b' := b[..|b| - 1];
      assert (a + b)[..|a + b| - 1] == a + b';
      assert (a + b)[|a + b| - 1] == b[|b| - 1];
      ReplyLinesAppend(a, b', platform);
    }
  }

  /**
   * The stanza is the header followed by the replies' lines in thread
   * order: reply k's line stands after the lines of replies 0 to k - 1.
   */
  lemma ReplyLinesInOrder(replies: seq<ThreadMessage>, k: nat, platform: Platform)
    requires k < |replies|
    ensures RepliesStanza(Some(replies), platform)
         == RepliesHeader + ReplyLines(replies[..k], platform) + ReplyLine(replies[k], platform)
            + ReplyLines(replies[k + 1..], platform)
  {
    assert replies == replies[..k] + [replies[k]] + replies[k + 1..];
    ReplyLinesAppend(replies[..k] + [replies[k]], replies[k + 1..], platform);
    ReplyLinesAppend(replies[..k], [replies[k]], platform);
    assert [replies[k]][..0] == [];
  }

  /**
   * The prompt is the recency bot's prompt cut at the end of the retrieved
   * context, with the asker clause, then the stanza, then a blank line put
   * in the cut; without a thread the stanza is empty.
   */
  lemma StanzaFollowsAskerClause(who: string, replies: Option<seq<ThreadMessage>>, platform: Platform)
    ensures var cut := |RecencyBot.ContextPreamble|;
      Template(who, RepliesStanza(replies, platform))
        == RecencyBot.Template[..cut] + AskerClause(who) + RepliesStanza(replies, platform) + "\n" + RecencyBot.Template[cut..]
    ensures replies.None? ==> RepliesStanza(replies, platform) == ""
  {
    var cut := |RecencyBot.ContextPreamble|;
    assert RecencyBot.Template[..cut] == RecencyBot.ContextPreamble;
    assert RecencyBot.Template[cut..] == RecencyBot.QuestionCoda;
  }

  /** Where reply j's text starts in the template: after everything that precedes it on its line. */
  function ReplyTextOffset(who: string, replies: seq<ThreadMessage>, j: nat, platform: Platform): nat
    requires j < |replies|
  {
    |RecencyBot.ContextPreamble| + |AskerClause(who)| + |RepliesHeader| + |ReplyLines(replies[..j], platform)|
    + |platform.lookupUser(replies[j].user).name| + 2
  }

  /** A string placed between two others can be read back at the first one's length. */
  lemma SliceBetween(x: string, y: string, z: string)
    ensures |x| + |y| <= |x + y + z| && (x + y + z)[|x|..|x| + |y|] == y
  {
  }

  /** Regrouping five concatenated pieces around the middle one. */
  lemma Regroup(a: string, b: string, c: string, d: string, e: string)
    ensures a + b + c + d + e == (a + b) + c + (d + e)
  {
  }

  /** The stanza as the three pieces around reply j's text. */
  lemma StanzaAroundReply(replies: seq<ThreadMessage>, j: nat, platform: Platform)
    requires j < |replies|
    ensures RepliesStanza(Some(replies), platform)
         == (RepliesHeader + ReplyLines(replies[..j], platform) + (platform.lookupUser(replies[j].user).name + ": "))
            + replies[j].text + ("\n" + ReplyLines(replies[j + 1..], platform))
  {
    ReplyLinesInOrder(replies, j, platform);
    Regroup(RepliesHeader + ReplyLines(replies[..j], platform), platform.lookupUser(replies[j].user).name + ": ",
            replies[j].text, "\n", ReplyLines(replies[j + 1..], platform));
  }

  /** The template as the three pieces around a piece of its stanza. */
  lemma TemplateAround(who: string, stanza: string, before: string, middle: string, after: string)
    requires stanza == before + middle + after
    ensures Template(who, stanza)
         == (RecencyBot.ContextPreamble + AskerClause(who) + before) + middle + (after + "\n" + RecencyBot.QuestionCoda)
  {
    Regroup(RecencyBot.ContextPreamble + AskerClause(who), before, middle, after, "\n" + RecencyBot.QuestionCoda);
  }

  /**
   * The text of every thread reply lands verbatim in the string that
   * `answer_question` hands over as a format template, so braces or a
   * placeholder such as `{query_str}` in a reply become part of the template.
   */
  lemma ReplyTextEntersTemplate(who: string, replies: seq<ThreadMessage>, j: nat, platform: Platform)
    requires j < |replies|
    ensures var t := Template(who, RepliesStanza(Some(replies), platform));
      var i := ReplyTextOffset(who, replies, j, platform);
      i + |replies[j].text| <= |t| && t[i..i + |replies[j].text|] == replies[j].text
  {
    var before := RepliesHeader + ReplyLines(replies[..j], platform) + (platform.lookupUser(replies[j].user).name + ": ");
    var after := "\n" + ReplyLines(replies[j + 1..], platform);
    StanzaAroundReply(replies, j, platform);
    TemplateAround(who, RepliesStanza(Some(replies), platform), before, replies[j].text, after);
    var x := RecencyBot.ContextPreamble + AskerClause(who) + before;
    SliceBetween(x, replies[j].text, after + "\n" + RecencyBot.QuestionCoda);
  }
}
