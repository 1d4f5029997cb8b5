/**
 * The parts of a Slack message event that the bot's `reply` handler looks at,
 * and the Slack and clock services it calls, given as plain values.
 */
module Slack {
  import opened Wrappers

  /**
   * One element of a rich-text section: an element of type `user`, one of
   * type `text`, or one of any other type. `Other` stands only for types other
   * than `user` and `text`; its `kind` is never one of those two.
   */
  datatype Element =
    | User(userId: string)
    | Text(text: string)
    | Other(kind: string)

  /** A rich-text section is the list under its `elements` key. */
  type Section = seq<Element>

  /** A block of the message: its `type` and, for rich text, the sections under `elements`. */
  datatype Block = Block(kind: string, sections: seq<Section>)

  /**
   * An incoming message event. A missing or empty `blocks` list is the empty
   * sequence (the handler treats both alike); `thread_ts` and
   * `parent_user_id` are present only on replies inside a thread.
   */
  datatype Message = Message(
    text: string,
    user: string,
    ts: string,
    channel: string,
    blocks: seq<Block>,
    threadTs: Option<string>,
    parentUserId: Option<string>)

  /** The pair that `get_user_name` returns: the user name, then the display name. */
  datatype UserInfo = UserInfo(name: string, displayName: string)

  /** One message of a thread, as `conversations_replies` lists it under `messages`. */
  datatype ThreadMessage = ThreadMessage(user: string, text: string)

  /**
   * The services the handler calls but this model does not implement:
   * the Slack user lookup, the conversion of a message timestamp into
   * `YYYY-MM-DD HH:MM:SS` local time, and the thread transcript lookup by
   * channel and thread timestamp.
   */
  datatype Platform = Platform(
    lookupUser: string -> UserInfo,
    formatTime: string -> string,
    fetchReplies: (string, string) -> seq<ThreadMessage>)

  /** Python truthiness of `message.get('thread_ts')`: present and not the empty string. */
  predicate InThread(m: Message)
  {
    m.threadTs.Some? && m.threadTs.value != ""
  }
}
