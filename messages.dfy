/**
 * Message records as the channel-messages endpoint returns them, after JSON decoding.
 * A key the relay reads with `get` or with `[...]` may be missing: such a key is an
 * `Option`, where `None` stands for a missing key. A JSON null is the same thing
 * to the relay only for `content` and the author's `avatar`, which are read with
 * `get`; JSON nulls elsewhere are not modelled.
 */
module Messages {
  import opened Wrappers

  /** An arbitrary JSON value. Embeds are carried as such and never inspected. */
  datatype Json =
    | JNull
    | JBool(b: bool)
    | JNumber(literal: string)
    | JString(s: string)
    | JArray(items: seq<Json>)
    | JObject(fields: map<string, Json>)

  /** An embed object, forwarded verbatim. */
  type Embed = Json

  /** An attachment object: its `url` key and whatever other keys it carries. */
  datatype Attachment = Attachment(url: Option<string>, otherFields: map<string, Json>)

  /** The `author` object of a message. `avatar` is the avatar hash token. */
  datatype Author = Author(id: Option<string>, username: Option<string>, avatar: Option<string>)

  /** A raw message record. */
  datatype Message = Message(
    id: Option<string>,
    author: Option<Author>,
    content: Option<string>,
    embeds: Option<seq<Embed>>,
    attachments: Option<seq<Attachment>>)

  /** The exception raised when a dictionary is indexed with a key it lacks. */
  datatype Failure = KeyError(key: string)
}
