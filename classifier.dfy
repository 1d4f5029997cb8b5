/**
 * The direct-question test that every version of the bot runs first: walk
 * the message's blocks, keep the `rich_text` ones, and look in each of their
 * sections for a mention of the bot; the query is the first text element of
 * the first section that both mentions the bot and holds some text.
 */
module Classifier {
  import opened Wrappers
  import opened Slack

  /** The block type the search looks into; every other block is skipped. */
  const RichText := "rich_text"

  /** The section holds an element of type `user` whose `user_id` is `userId`. */
  predicate Mentions(section: Section, userId: string)
  {
    exists k :: 0 <= k < |section| && section[k] == User(userId)
  }

  /** The section holds an element of type `text`. */
  predicate HasText(section: Section)
  {
    exists k :: 0 <= k < |section| && section[k].Text?
  }

  /** A section that makes the message a question to the bot. */
  predicate Qualifies(section: Section, botUserId: string)
  {
    Mentions(section, botUserId) && HasText(section)
  }

  /** Element k is a `text` element and no element before it is one. */
  predicate IsFirstText(section: Section, k: int)
  {
    0 <= k < |section| && section[k].Text? && forall k' :: 0 <= k' < k ==> !section[k'].Text?
  }

  /** The text of the section's first `text` element, wherever the mention is. */
  function FirstText(section: Section): (r: Option<string>)
    ensures r.Some? <==> HasText(section)
    ensures r.Some? ==> exists k :: IsFirstText(section, k) && section[k] == Text(r.value)
  {
    if section == [] then None
    else if section[0].Text? then Some(section[0].text)
    else
      var r := FirstText(section[1..]);
      assert r.Some? ==> exists k :: IsFirstText(section, k) && section[k] == Text(r.value) by {
        if r.Some? {
          var k :| IsFirstText(section[1..], k) && section[1..][k] == Text(r.value);
          assert section[k + 1] == Text(r.value);
          forall k' | 0 < k' < k + 1 ensures !section[k'].Text? {
            assert section[k'] == section[1..][k' - 1];
          }
          assert IsFirstText(section, k + 1);
        }
      }
      assert HasText(section) ==> HasText(section[1..]) by {
        if HasText(section) {
          var k :| 0 <= k < |section| && section[k].Text?;
          assert section[1..][k - 1] == section[k];
        }
      }
      r
  }

  /** A `text` element with no `text` element before it is the one FirstText picks. */
  lemma FirstTextAt(section: Section, l: nat)
    requires IsFirstText(section, l)
    ensures FirstText(section) == Some(section[l].text)
  {
  }

  /** Section j qualifies and no section before it does. */
  predicate IsFirstQualifying(sections: seq<Section>, j: int, botUserId: string)
  {
    0 <= j < |sections| && Qualifies(sections[j], botUserId) &&
    forall j' :: 0 <= j' < j ==> !Qualifies(sections[j'], botUserId)
  }

  /** The query found in a list of sections, scanning them in order. */
  function SectionsQuery(sections: seq<Section>, botUserId: string): Option<string>
  {
    if sections == [] then None
    else if Qualifies(sections[0], botUserId) then FirstText(sections[0])
    else SectionsQuery(sections[1..], botUserId)
  }

  /** The query a message's blocks carry, or None when they do not ask the bot anything. */
  function QuestionIn(blocks: seq<Block>, botUserId: string): Option<string>
  {
    if blocks == [] then None
    else
      var q := if blocks[0].kind == RichText then SectionsQuery(blocks[0].sections, botUserId) else None;
      if q.Some? then q else QuestionIn(blocks[1..], botUserId)
  }

  /** All sections of the `rich_text` blocks, in message order. */
  function RichTextSections(blocks: seq<Block>): seq<Section>
  {
    if blocks == [] then []
    else (if blocks[0].kind == RichText then blocks[0].sections else []) + RichTextSections(blocks[1..])
  }

  /**
   * The loop nest of `reply`: blocks, then sections of rich-text blocks, then
   * their elements; on a mention of the bot, a second walk over the same
   * section's elements returns the first text it meets. A section whose
   * mention has no text beside it does not stop the search.
   */
  method FindQuestion(blocks: seq<Block>, botUserId: string) returns (query: Option<string>)
    ensures query == QuestionIn(blocks, botUserId)
  {
    var i := 0;
    while i < |blocks|
      invariant 0 <= i <= |blocks|
      invariant QuestionIn(blocks, botUserId) == QuestionIn(blocks[i..], botUserId)
    {
      var block := blocks[i];
      if block.kind == RichText {
        var j := 0;
        while j < |block.sections|
          invariant 0 <= j <= |block.sections|
          invariant SectionsQuery(block.sections, botUserId) == SectionsQuery(block.sections[j..], botUserId)
        {
          var section := block.sections[j];
          var k := 0;
          while k < |section|
            invariant 0 <= k <= |section|
            invariant (exists k' :: 0 <= k' < k && section[k'] == User(botUserId)) ==> !HasText(section)
          {
            if section[k] == User(botUserId) {
              var l := 0;
              while l < |section|
                invariant 0 <= l <= |section|
                invariant forall l' :: 0 <= l' < l ==> !section[l'].Text?
              {
                if section[l].Text? {
                  query := Some(section[l].text);
                  assert IsFirstText(section, l);
                  FirstTextAt(section, l);
                  assert Qualifies(section, botUserId);
                  assert block.sections[j..][0] == section;
                  assert blocks[i..][0] == block;
                  return;
                }
                l := l + 1;
              }
            }
            k := k + 1;
          }
          assert !Qualifies(section, botUserId);
          assert block.sections[j..][1..] == block.sections[j + 1..];
          j := j + 1;
        }
      }
      assert blocks[i..][1..] == blocks[i + 1..];
      i := i + 1;
    }
    query := None;
  }

  lemma {:induction false} SectionsQueryAppend(a: seq<Section>, b: seq<Section>, botUserId: string)
    ensures SectionsQuery(a + b, botUserId)
         == if SectionsQuery(a, botUserId).Some? then SectionsQuery(a, botUserId) else SectionsQuery(b, botUserId)
  {
    if a == [] {
      assert a + b == b;
    } else {
      assert (a + b)[0] == a[0];
      assert (a + b)[1..] == a[1..] + b;
      SectionsQueryAppend(a[1..], b, botUserId);
    }
  }

  /**
   * Block boundaries do not matter: the search over the blocks is the search
   * over the sections of the rich-text blocks laid end to end.
   */
  lemma {:induction false} QuestionInFlattens(blocks: seq<Block>, botUserId: string)
    ensures QuestionIn(blocks, botUserId) == SectionsQuery(RichTextSections(blocks), botUserId)
  {
    if blocks != [] {
      QuestionInFlattens(blocks[1..], botUserId);
      var head := if blocks[0].kind == RichText then blocks[0].sections else [];
      SectionsQueryAppend(head, RichTextSections(blocks[1..]), botUserId);
    }
  }

  lemma {:induction false} SectionsQueryIsFirstQualifying(sections: seq<Section>, botUserId: string)
    ensures SectionsQuery(sections, botUserId).None? <==>
      forall j :: 0 <= j < |sections| ==> !Qualifies(sections[j], botUserId)
    ensures SectionsQuery(sections, botUserId).Some? ==>
      exists j :: IsFirstQualifying(sections, j, botUserId) && FirstText(sections[j]) == SectionsQuery(sections, botUserId)
    ensures forall j :: IsFirstQualifying(sections, j, botUserId) ==> SectionsQuery(sections, botUserId) == FirstText(sections[j])
  {
    if sections != [] && !Qualifies(sections[0], botUserId) {
      var rest := sections[1..];
      SectionsQueryIsFirstQualifying(rest, botUserId);
      assert forall j :: 1 <= j < |sections| ==> sections[j] == rest[j - 1];
      if SectionsQuery(rest, botUserId).Some? {
        var j :| IsFirstQualifying(rest, j, botUserId) && FirstText(rest[j]) == SectionsQuery(rest, botUserId);
        forall j' | 1 <= j' < j + 1 ensures !Qualifies(sections[j'], botUserId) {
          assert sections[j'] == rest[j' - 1];
        }
        assert IsFirstQualifying(sections, j + 1, botUserId);
      }
      forall j | IsFirstQualifying(sections, j, botUserId)
        ensures SectionsQuery(sections, botUserId) == FirstText(sections[j])
      {
        forall j' | 0 <= j' < j - 1 ensures !Qualifies(rest[j'], botUserId) {
          assert rest[j'] == sections[j' + 1];
        }
        assert IsFirstQualifying(rest, j - 1, botUserId);
      }
    } else if sections != [] {
      assert IsFirstQualifying(sections, 0, botUserId);
    }
  }

  /**
   * The message asks the bot a question exactly when some section of a
   * `rich_text` block both mentions the bot and holds a text element; the
   * query is then the first text of the first such section, in block order
   * and then section order.
   */
  lemma QuestionIsFirstQualifyingSection(blocks: seq<Block>, botUserId: string)
    ensures var sections := RichTextSections(blocks);
      QuestionIn(blocks, botUserId).None? <==>
        forall j :: 0 <= j < |sections| ==> !Qualifies(sections[j], botUserId)
    ensures var sections := RichTextSections(blocks);
      QuestionIn(blocks, botUserId).Some? ==>
        exists j :: IsFirstQualifying(sections, j, botUserId) && FirstText(sections[j]) == QuestionIn(blocks, botUserId)
    ensures var sections := RichTextSections(blocks);
      forall j :: IsFirstQualifying(sections, j, botUserId) ==> QuestionIn(blocks, botUserId) == FirstText(sections[j])
  {
    QuestionInFlattens(blocks, botUserId);
    SectionsQueryIsFirstQualifying(RichTextSections(blocks), botUserId);
  }

  /** The flattened sections are exactly those of the `rich_text` blocks. */
  lemma {:induction false} RichTextSectionsMembers(blocks: seq<Block>, s: Section)
    ensures s in RichTextSections(blocks) <==>
      exists i :: 0 <= i < |blocks| && blocks[i].kind == RichText && s in blocks[i].sections
  {
    if blocks != [] {
      RichTextSectionsMembers(blocks[1..], s);
      assert forall i :: 1 <= i < |blocks| ==> blocks[i] == blocks[1..][i - 1];
      if exists i :: 0 <= i < |blocks| && blocks[i].kind == RichText && s in blocks[i].sections {
        var i :| 0 <= i < |blocks| && blocks[i].kind == RichText && s in blocks[i].sections;
        if i > 0 {
          assert blocks[1..][i - 1] == blocks[i];
        }
      }
    }
  }

  /** A block of any other type than `rich_text` has no effect on the outcome, wherever it stands. */
  lemma {:induction false} NonRichTextBlockIgnored(before: seq<Block>, b: Block, after: seq<Block>, botUserId: string)
    requires b.kind != RichText
    ensures QuestionIn(before + [b] + after, botUserId) == QuestionIn(before + after, botUserId)
  {
    if before == [] {
      assert before + [b] + after == [b] + after;
      assert ([b] + after)[1..] == after;
      assert before + after == after;
    } else {
      assert (before + [b] + after)[0] == before[0];
      assert (before + [b] + after)[1..] == before[1..] + [b] + after;
      assert (before + after)[0] == before[0];
      assert (before + after)[1..] == before[1..] + after;
      NonRichTextBlockIgnored(before[1..], b, after, botUserId);
    }
  }

  lemma {:induction false} SectionsQueryNeedsMention(sections: seq<Section>, botUserId: string)
    requires SectionsQuery(sections, botUserId).Some?
    ensures exists j ::
      (0 <= j < |sections| && Mentions(sections[j], botUserId) &&
       SectionsQuery(sections, botUserId) == FirstText(sections[j]))
    ensures exists j, k :: 0 <= j < |sections| && 0 <= k < |sections[j]| && sections[j][k] == User(botUserId)
  {
    SectionsQueryIsFirstQualifying(sections, botUserId);
    var j :| IsFirstQualifying(sections, j, botUserId) && FirstText(sections[j]) == SectionsQuery(sections, botUserId);
    var k :| 0 <= k < |sections[j]| && sections[j][k] == User(botUserId);
  }

  /**
   * Only a mention of the bot itself can make a question: a message that
   * mentions other users, or mentions the bot outside a `rich_text` block,
   * is not answered.
   */
  lemma {:induction false} AnswerNeedsBotMention(blocks: seq<Block>, botUserId: string)
    requires QuestionIn(blocks, botUserId).Some?
    ensures exists i, j, k ::
      (0 <= i < |blocks| && blocks[i].kind == RichText &&
       0 <= j < |blocks[i].sections| && 0 <= k < |blocks[i].sections[j]| &&
       blocks[i].sections[j][k] == User(botUserId))
  {
    if blocks[0].kind == RichText && SectionsQuery(blocks[0].sections, botUserId).Some? {
      SectionsQueryNeedsMention(blocks[0].sections, botUserId);
      var j, k :| 0 <= j < |blocks[0].sections| && 0 <= k < |blocks[0].sections[j]| &&
        blocks[0].sections[j][k] == User(botUserId);
      assert blocks[0].sections[j][k] == User(botUserId);
    } else {
      AnswerNeedsBotMention(blocks[1..], botUserId);
      var i, j, k :| 0 <= i < |blocks[1..]| && blocks[1..][i].kind == RichText &&
        0 <= j < |blocks[1..][i].sections| && 0 <= k < |blocks[1..][i].sections[j]| &&
        blocks[1..][i].sections[j][k] == User(botUserId);
      assert blocks[i + 1] == blocks[1..][i];
    }
  }

  /** The text may come before the mention: "hello @bot" asks "hello". */
  lemma TextBeforeMentionIsTheQuery(botUserId: string)
    ensures QuestionIn([Block(RichText, [[Text("what is new? "), User(botUserId)]])], botUserId)
         == Some("what is new? ")
  {
    var section := [Text("what is new? "), User(botUserId)];
    assert section[1] == User(botUserId);
    assert IsFirstText(section, 0);
    assert Qualifies(section, botUserId);
  }
}
