/** Message content carried by a conversation message: plain text, a presence
    ping (text routed to a notification) or a link. */
module Messages {
  import opened Base

  /** The `type` tag a text content may carry; "text" is the default. */
  datatype TextKind = TextType | PresenceType

  datatype Content =
    | Text(body: string, kind: TextKind)
    | Link(url: string, linkText: Option<string>)
  {
    /** The wire `type` tag of the content. */
    function Type(): (t: string)
      ensures Text? ==> (t == "text" || t == "presence")
      ensures Link? <==> t == "link"
      ensures t == "presence" <==> IsPresence()
    {
      match this
      case Text(_, TextType) => "text"
      case Text(_, PresenceType) => "presence"
      case Link(_, _) => "link"
    }

    predicate IsPresence() {
      Text? && kind == PresenceType
    }
  }

  /** `TextContent(body=...)` with the default tag. */
  function TextContent(body: string): (c: Content)
    ensures c.Type() == "text" && !c.IsPresence()
    ensures c.Text? && c.body == body
  {
    Text(body, TextType)
  }

  /** `LinkContent(url=...)` with the default tag and no link text. */
  function LinkContent(url: string): (c: Content)
    ensures c.Type() == "link" && c.Link? && c.url == url
    ensures c.linkText == None
  {
    Link(url, None)
  }

  /** The text tag accepted for a TextContent: only "text" or "presence", and
      "text" when the tag is absent; anything else is refused. */
  function ParseTextType(tag: Option<string>): (r: Option<TextKind>)
    ensures r.Some? <==> (tag == None || tag == Some("text") || tag == Some("presence"))
    ensures r == Some(PresenceType) <==> tag == Some("presence")
  {
    match tag
    case None => Some(TextType)
    case Some(t) =>
      if t == "text" then Some(TextType)
      else if t == "presence" then Some(PresenceType)
      else None
  }

  /** The tag written for a text content is read back as the same kind. */
  lemma TextTypeRoundTrip(c: Content)
    requires c.Text?
    ensures ParseTextType(Some(c.Type())) == Some(c.kind)
  {
  }
}
