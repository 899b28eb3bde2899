/**
 * The webhook payload built from a raw message (the dictionary constructed in
 * `forward`). Pure: no network, no state.
 */
module Transform {
  import opened Wrappers
  import opened Messages

  /** An attachment as forwarded: a `url` and no other field. */
  datatype AttachmentLink = AttachmentLink(url: string)

  /** The JSON body posted to the webhook. */
  datatype Payload = Payload(
    content: Option<string>,
    username: string,
    avatarUrl: Option<string>,
    embeds: seq<Embed>,
    attachments: seq<AttachmentLink>)

  const AvatarPrefix := "https://cdn.discordapp.com/avatars/"
  const AvatarSuffix := ".png"

  /** Python truthiness of an optional string: present and non-empty. */
  predicate Truthy(s: Option<string>)
  {
    s.Some? && s.value != ""
  }

  /** The CDN address of an author's avatar image. */
  function AvatarUrl(userId: string, token: string): (r: string)
    ensures |r| == |AvatarPrefix| + |userId| + 1 + |token| + |AvatarSuffix|
    ensures r[..|AvatarPrefix|] == AvatarPrefix && r[|r| - |AvatarSuffix|..] == AvatarSuffix
  {
    AvatarPrefix + userId + "/" + token + AvatarSuffix
  }

  /** The avatar address is the fixed prefix, the user id, '/', the token and ".png", in that order. */
  lemma AvatarUrlParts(userId: string, token: string)
    ensures var r := AvatarUrl(userId, token);
      && |r| == |AvatarPrefix| + |userId| + 1 + |token| + |AvatarSuffix|
      && r[..|AvatarPrefix|] == AvatarPrefix
      && r[|AvatarPrefix|..|AvatarPrefix| + |userId|] == userId
      && r[|AvatarPrefix| + |userId|] == '/'
      && r[|AvatarPrefix| + |userId| + 1..|r| - |AvatarSuffix|] == token
      && r[|r| - |AvatarSuffix|..] == AvatarSuffix
  {
  }

  /**
   * For user ids without a '/', which is every numeric id, the avatar address
   * determines both the id and the token it was built from.
   */
  lemma AvatarUrlInjective(id1: string, token1: string, id2: string, token2: string)
    requires '/' !in id1 && '/' !in id2
    requires AvatarUrl(id1, token1) == AvatarUrl(id2, token2)
    ensures id1 == id2 && token1 == token2
  {
    AvatarUrlParts(id1, token1);
    AvatarUrlParts(id2, token2);
  }

  /** Every attachment carries a `url`. */
  predicate HaveUrls(atts: seq<Attachment>)
  {
    forall i :: 0 <= i < |atts| ==> atts[i].url.Some?
  }

  /**
   * The attachments list comprehension: each attachment reduced to its `url`,
   * in order; indexing a missing `url` raises.
   */
  function Links(atts: seq<Attachment>): (r: Result<seq<AttachmentLink>, Failure>)
    ensures r.Ok? <==> HaveUrls(atts)
    ensures r.Ok? ==> |r.value| == |atts|
    ensures r.Ok? ==> forall i :: 0 <= i < |atts| ==> r.value[i] == AttachmentLink(atts[i].url.value)
    ensures r.Err? ==> r.error == KeyError("url")
  {
    if atts == [] then Ok([])
    else if atts[0].url.None? then Err(KeyError("url"))
    else
      match Links(atts[1..])
      case Err(e) => Err(e)
      case Ok(rest) => Ok([AttachmentLink(atts[0].url.value)] + rest)
  }

  /** The message can be turned into a payload without raising. */
  predicate Forwardable(m: Message)
  {
    && m.author.Some?
    && m.author.value.username.Some?
    && (Truthy(m.author.value.avatar) ==> m.author.value.id.Some?)
    && HaveUrls(OrEmpty(m.attachments))
  }

  /**
   * The payload of `forward`. The dictionary's values are evaluated in the order
   * content, username, avatar_url, embeds, attachments, so the first missing key
   * in that order is the one that raises.
   */
  function ToPayload(m: Message): (r: Result<Payload, Failure>)
    ensures r.Ok? <==> Forwardable(m)
  {
    if m.author.None? then Err(KeyError("author"))
    else
      var author := m.author.value;
      if author.username.None? then Err(KeyError("username"))
      else if Truthy(author.avatar) && author.id.None? then Err(KeyError("id"))
      else
        var avatarUrl := if Truthy(author.avatar) then Some(AvatarUrl(author.id.value, author.avatar.value)) else None;
        match Links(OrEmpty(m.attachments))
        case Err(e) => Err(e)
        case Ok(links) => Ok(Payload(m.content, author.username.value, avatarUrl, OrEmpty(m.embeds), links))
  }

  /** Which KeyError a message raises, by the first key missing in evaluation order. */
  lemma ToPayloadRaises(m: Message)
    ensures m.author.None? ==> ToPayload(m) == Err(KeyError("author"))
    ensures m.author.Some? && m.author.value.username.None? ==> ToPayload(m) == Err(KeyError("username"))
    ensures (m.author.Some? && m.author.value.username.Some? && Truthy(m.author.value.avatar)
             && m.author.value.id.None?) ==> ToPayload(m) == Err(KeyError("id"))
    ensures (m.author.Some? && m.author.value.username.Some?
             && (Truthy(m.author.value.avatar) ==> m.author.value.id.Some?)
             && !HaveUrls(OrEmpty(m.attachments))) ==> ToPayload(m) == Err(KeyError("url"))
  {
  }

  /**
   * The fields of the payload: content copied as is (absent stays absent, "" stays ""),
   * username from the author, the avatar address only for a non-empty avatar token,
   * embeds verbatim or [], each attachment reduced to its url in order.
   */
  lemma ToPayloadFields(m: Message)
    requires Forwardable(m)
    ensures ToPayload(m).value.content == m.content
    ensures ToPayload(m).value.username == m.author.value.username.value
    ensures ToPayload(m).value.avatarUrl ==
      (if Truthy(m.author.value.avatar)
       then Some(AvatarUrl(m.author.value.id.value, m.author.value.avatar.value))
       else None)
    ensures ToPayload(m).value.embeds == OrEmpty(m.embeds)
    ensures |ToPayload(m).value.attachments| == |OrEmpty(m.attachments)|
    ensures forall i :: 0 <= i < |OrEmpty(m.attachments)| ==>
      ToPayload(m).value.attachments[i] == AttachmentLink(OrEmpty(m.attachments)[i].url.value)
  {
  }
}
