/** Follow-up ticket creation when a conversation ends: the configuration read
    from the environment, the three gates before a ticket is attempted, the
    ticket payload and its description, the ticket link, and the connectivity
    verdict of the health check. The HTTP exchanges themselves are inputs: the
    ticket record the API answered with, and the status of the health probe. */
module Zendesk {
  import opened Base

  /** The JSON values an `ended_by` mapping, metadata or a ticket record holds. */
  datatype Json = JNull | JBool(b: bool) | JInt(i: int) | JStr(s: string)

  type Object = map<string, Json>

  /** Python's `str(v)`, which is also what an f-string shows. */
  function Str(v: Json): string {
    match v
    case JNull => "None"
    case JBool(b) => if b then "True" else "False"
    case JInt(i) => IntToString(i)
    case JStr(s) => s
  }

  /** Python's `str(x)` of a `str | None`. */
  function StrOpt(x: Option<string>): string {
    if x.Some? then x.value else "None"
  }

  /** Python's `d.get(key, default)`. */
  function GetOr(d: Object, key: string, default: Json): Json {
    if key in d then d[key] else default
  }

  datatype CustomField = CustomField(id: string, value: Json)

  datatype Ticket = Ticket(
    subject: string,
    description: string,
    tags: seq<string>,
    priority: string,
    ticketType: string,
    status: string,
    /** None when the payload has no `custom_fields` key. */
    customFields: Option<seq<CustomField>>)

  /** Why no ticket is attempted, in the order the gates are tried. */
  datatype Skip = Disabled | NotConfigured | NotEndedByEndUser

  /** The outcome of one creation call: the payload sent, if any, and the
      ticket record returned to the caller, if any. */
  datatype Attempt = Attempt(sent: Option<Ticket>, ticket: Option<Object>)

  const SubdomainKey: string := "ZENDESK_SUBDOMAIN"
  const EmailKey: string := "ZENDESK_EMAIL"
  const TokenKey: string := "ZENDESK_API_TOKEN"
  const EnabledKey: string := "ZENDESK_AUTO_TICKET_ENABLED"
  const TagKey: string := "ZENDESK_AUTO_TICKET_TAG"
  const PriorityKey: string := "ZENDESK_TICKET_PRIORITY"
  const TypeKey: string := "ZENDESK_TICKET_TYPE"

  const SubjectPrefix: string := "Bot Conversation Follow-up - "

  /** An environment variable, or None when it is unset. */
  function Env(env: map<string, string>, key: string): Option<string> {
    if key in env then Some(env[key]) else None
  }

  /** An environment variable, or `default` when it is unset. */
  function EnvOr(env: map<string, string>, key: string, default: string): string {
    if key in env then env[key] else default
  }

  /** The enable flag's test: the value, lower-cased, is "true". */
  predicate IsTrueFlag(raw: string) {
    Lower(raw) == "true"
  }

  /** The flag is "true" in any mix of upper and lower case, and nothing else. */
  lemma TrueFlagIff(raw: string)
    ensures IsTrueFlag(raw) <==>
      && |raw| == 4
      && (raw[0] == 't' || raw[0] == 'T')
      && (raw[1] == 'r' || raw[1] == 'R')
      && (raw[2] == 'u' || raw[2] == 'U')
      && (raw[3] == 'e' || raw[3] == 'E')
  {
    if |raw| == 4 {
      var l := Lower(raw);
      assert l == "true" <==> (l[0] == 't' && l[1] == 'r' && l[2] == 'u' && l[3] == 'e');
    }
  }

  /** The creator's settings, fixed when it is constructed. */
  datatype TicketCreator = TicketCreator(
    subdomain: Option<string>,
    email: Option<string>,
    token: Option<string>,
    enabled: bool,
    autoTag: string,
    ticketPriority: string,
    ticketType: string)
  {
    /** Subdomain, e-mail and API token are all set and non-empty. */
    predicate IsConfigured() {
      Truthy(subdomain) && Truthy(email) && Truthy(token)
    }

    /** The first gate that stops ticket creation, or None when a ticket is
        attempted: disabled first, then unconfigured, then a conversation not
        ended by its end user (an absent role counts as not the end user). */
    function SkipReason(endedBy: Object): (r: Option<Skip>)
      ensures r == Some(Disabled) <==> !enabled
      ensures r == Some(NotConfigured) <==> enabled && !IsConfigured()
      ensures r == Some(NotEndedByEndUser) <==> enabled && IsConfigured() && GetOr(endedBy, "role", JNull) != JStr("end_user")
      ensures r == None <==> enabled && IsConfigured() && "role" in endedBy && endedBy["role"] == JStr("end_user")
    {
      if !enabled then Some(Disabled)
      else if !IsConfigured() then Some(NotConfigured)
      else if GetOr(endedBy, "role", JNull) != JStr("end_user") then Some(NotEndedByEndUser)
      else None
    }

    /** The start of every ticket link. */
    function TicketUrlBase(): string {
      "https://" + StrOpt(subdomain) + ".zendesk.com/agent/tickets/"
    }

    /** The agent-facing link to a ticket: the link base followed by the id. */
    function TicketUrl(ticketId: Json): (url: string)
      ensures |url| == |TicketUrlBase()| + |Str(ticketId)|
      ensures url[..|TicketUrlBase()|] == TicketUrlBase() && url[|TicketUrlBase()|..] == Str(ticketId)
    {
      TicketUrlBase() + Str(ticketId)
    }

    /** The health verdict: false when unconfigured; otherwise true exactly
        when the probe got an answer with status 200, 401 or 403 (an
        authentication refusal still shows connectivity). None stands for a
        probe that raised. */
    predicate HealthCheck(status: Option<int>)
    {
      if !IsConfigured() then false
      else match status
        case None => false
        case Some(code) => code in [200, 401, 403]
    }

    /** The ticket payload for a conversation: the subject names the first
        eight characters of the conversation id; three tags; priority and type
        from the settings; status "new"; the custom fields that apply. */
    function TicketFor(conversationId: string, endedBy: Object, channelId: Option<string>,
                       metadata: Option<seq<(string, Json)>>, now: string): Ticket
    {
      var fields := CustomFieldsFor(conversationId, channelId, GetOr(endedBy, "id", JStr("unknown")));
      Ticket(
        SubjectPrefix + Take(conversationId, 8),
        Join("\n", DescriptionLines(conversationId, endedBy, channelId, metadata, now)),
        [autoTag, "bot-conversation", "automated"],
        ticketPriority,
        ticketType,
        "new",
        if fields == [] then None else Some(fields))
    }

    /** Builds the payload: custom fields are appended one condition at a
        time, and the key is only set when at least one applies. */
    method BuildTicketPayload(conversationId: string, endedBy: Object, channelId: Option<string>,
                              metadata: Option<seq<(string, Json)>>, now: string) returns (t: Ticket)
      ensures t == TicketFor(conversationId, endedBy, channelId, metadata, now)
    {
      var userId := GetOr(endedBy, "id", JStr("unknown"));
      var description := GenerateDescription(conversationId, endedBy, channelId, metadata, now);
      var fields: seq<CustomField> := [];
      if conversationId != "" {
        fields := fields + [CustomField("ada_conversation_id", JStr(conversationId))];
      }
      if Truthy(channelId) {
        fields := fields + [CustomField("ada_channel_id", JStr(channelId.value))];
      }
      if userId != JStr("unknown") {
        fields := fields + [CustomField("ada_user_id", userId)];
      }
      assert fields == CustomFieldsFor(conversationId, channelId, userId);
      t := Ticket(
        SubjectPrefix + Take(conversationId, 8),
        description,
        [autoTag, "bot-conversation", "automated"],
        ticketPriority,
        ticketType,
        "new",
        if fields == [] then None else Some(fields));
    }

    /** Builds the description line by line, one line per metadata entry. */
    method GenerateDescription(conversationId: string, endedBy: Object, channelId: Option<string>,
                               metadata: Option<seq<(string, Json)>>, now: string) returns (d: string)
      ensures d == Join("\n", DescriptionLines(conversationId, endedBy, channelId, metadata, now))
    {
      var details := DetailLines(conversationId, endedBy, channelId, now);
      var lines := details;
      if metadata.Some? && metadata.value != [] {
        lines := lines + ["", "**Conversation Metadata:**"];
        lines := AppendMetadataLines(lines, metadata.value);
        assert lines == details + (["", "**Conversation Metadata:**"] + MetadataLines(metadata.value));
      } else {
        assert lines == details + [];
      }
      lines := lines + NextStepLines;
      d := Join("\n", lines);
    }

    /** A ticket is attempted only past the three gates; a record comes back
        only when the API answered with a non-empty record that has an id, and
        it is that record with the ticket link added under "url". */
    method CreateTicketFromConversation(conversationId: string, endedBy: Object, channelId: Option<string>,
                                        metadata: Option<seq<(string, Json)>>, now: string,
                                        response: Option<Object>) returns (a: Attempt)
      ensures SkipReason(endedBy).Some? ==> a == Attempt(None, None)
      ensures SkipReason(endedBy).None? ==> a.sent == Some(TicketFor(conversationId, endedBy, channelId, metadata, now))
      ensures a.ticket.Some? <==>
        SkipReason(endedBy).None? && response.Some? && response.value != map[] && "id" in response.value
      ensures a.ticket.Some? ==>
        a.ticket.value == response.value["url" := JStr(TicketUrl(response.value["id"]))]
    {
      if !enabled {
        return Attempt(None, None);
      }
      if !IsConfigured() {
        return Attempt(None, None);
      }
      if GetOr(endedBy, "role", JNull) != JStr("end_user") {
        return Attempt(None, None);
      }
      var payload := BuildTicketPayload(conversationId, endedBy, channelId, metadata, now);
      if response.Some? && response.value != map[] {
        var result := response.value;
        if "id" in result {
          var url := TicketUrl(result["id"]);
          return Attempt(Some(payload), Some(result["url" := JStr(url)]));
        }
      }
      return Attempt(Some(payload), None);
    }
  }

  /** Links to tickets with different numeric ids are different. */
  lemma TicketUrlIdentifies(creator: TicketCreator, n: int, m: int)
    requires creator.TicketUrl(JInt(n)) == creator.TicketUrl(JInt(m))
    ensures n == m
  {
    IntToStringRoundTrip(n);
    IntToStringRoundTrip(m);
    assert IntToString(n) == creator.TicketUrl(JInt(n))[|creator.TicketUrlBase()|..];
  }

  /** A healthy probe implies a configured creator, and for a configured one
      exactly the answers 200, 401 and 403 count as healthy. */
  lemma HealthCheckIff(creator: TicketCreator, status: Option<int>)
    ensures creator.HealthCheck(status) ==> creator.IsConfigured()
    ensures creator.IsConfigured() ==>
      (creator.HealthCheck(status) <==> status == Some(200) || status == Some(401) || status == Some(403))
  {
  }

  /** The creator as constructed from the environment: the three credentials
      as found, the enable flag off unless it reads "true", and the tag,
      priority and type defaulting to "ada-bot-conversation", "normal" and
      "question". */
  function FromEnvironment(env: map<string, string>): (c: TicketCreator)
    ensures c.subdomain == Env(env, SubdomainKey) && c.email == Env(env, EmailKey) && c.token == Env(env, TokenKey)
    ensures c.enabled <==> EnabledKey in env && IsTrueFlag(env[EnabledKey])
    ensures TagKey !in env ==> c.autoTag == "ada-bot-conversation"
    ensures PriorityKey !in env ==> c.ticketPriority == "normal"
    ensures TypeKey !in env ==> c.ticketType == "question"
    ensures TagKey in env ==> c.autoTag == env[TagKey]
    ensures PriorityKey in env ==> c.ticketPriority == env[PriorityKey]
    ensures TypeKey in env ==> c.ticketType == env[TypeKey]
    ensures c.IsConfigured() <==>
      && SubdomainKey in env && env[SubdomainKey] != ""
      && EmailKey in env && env[EmailKey] != ""
      && TokenKey in env && env[TokenKey] != ""
  {
    TicketCreator(
      Env(env, SubdomainKey),
      Env(env, EmailKey),
      Env(env, TokenKey),
      IsTrueFlag(EnvOr(env, EnabledKey, "false")),
      EnvOr(env, TagKey, "ada-bot-conversation"),
      EnvOr(env, PriorityKey, "normal"),
      EnvOr(env, TypeKey, "question"))
  }

  /** The custom fields that apply, in this order: the conversation id when
      non-empty, the channel id when given, the ender's id unless it is
      "unknown". */
  function CustomFieldsFor(conversationId: string, channelId: Option<string>, userId: Json): seq<CustomField> {
    (if conversationId != "" then [CustomField("ada_conversation_id", JStr(conversationId))] else [])
    + (if Truthy(channelId) then [CustomField("ada_channel_id", JStr(channelId.value))] else [])
    + (if userId != JStr("unknown") then [CustomField("ada_user_id", userId)] else [])
  }

  /** The position of a custom field id in the fixed order. */
  function FieldRank(id: string): int {
    if id == "ada_conversation_id" then 0
    else if id == "ada_channel_id" then 1
    else if id == "ada_user_id" then 2
    else 3
  }

  /** The value the fields list gives an id, if any. */
  function FieldValue(fields: seq<CustomField>, id: string): Option<Json> {
    if fields == [] then None
    else if fields[0].id == id then Some(fields[0].value)
    else FieldValue(fields[1..], id)
  }

  /** Only the three known custom fields occur. Each appears at most once, in
      the fixed order, exactly when its condition holds, carrying its value;
      and the list is empty exactly when no condition holds. */
  lemma CustomFieldsShape(conversationId: string, channelId: Option<string>, userId: Json)
    ensures var fields := CustomFieldsFor(conversationId, channelId, userId);
      && (forall i :: 0 <= i < |fields| ==> FieldRank(fields[i].id) < 3)
      && (forall i, j :: 0 <= i < j < |fields| ==> FieldRank(fields[i].id) < FieldRank(fields[j].id))
      && FieldValue(fields, "ada_conversation_id") == (if conversationId != "" then Some(JStr(conversationId)) else None)
      && FieldValue(fields, "ada_channel_id") == (if Truthy(channelId) then Some(JStr(channelId.value)) else None)
      && FieldValue(fields, "ada_user_id") == (if userId != JStr("unknown") then Some(userId) else None)
      && (fields == [] <==> conversationId == "" && !Truthy(channelId) && userId == JStr("unknown"))
  {
    var a := if conversationId != "" then [CustomField("ada_conversation_id", JStr(conversationId))] else [];
    var b := if Truthy(channelId) then [CustomField("ada_channel_id", JStr(channelId.value))] else [];
    var c := if userId != JStr("unknown") then [CustomField("ada_user_id", userId)] else [];
    assert CustomFieldsFor(conversationId, channelId, userId) == a + b + c;
    FieldValueConcat(a + b, c, "ada_conversation_id");
    FieldValueConcat(a, b, "ada_conversation_id");
    FieldValueConcat(a + b, c, "ada_channel_id");
    FieldValueConcat(a, b, "ada_channel_id");
    FieldValueConcat(a + b, c, "ada_user_id");
    FieldValueConcat(a, b, "ada_user_id");
  }

  function FirstOf(x: Option<Json>, y: Option<Json>): Option<Json> {
    if x.Some? then x else y
  }

  /** Looking an id up in two lists one after the other finds the first list's
      value when it has one. */
  lemma {:induction false} FieldValueConcat(a: seq<CustomField>, b: seq<CustomField>, id: string)
    ensures FieldValue(a + b, id) == FirstOf(FieldValue(a, id), FieldValue(b, id))
    decreases |a|
  {
    if a == [] {
      assert a + b == b;
    } else {
      assert (a + b)[1..] == a[1..] + b;
      FieldValueConcat(a[1..], b, id);
    }
  }

  /** The subject is the fixed prefix followed by the conversation id cut to
      its first eight characters (all of it when shorter), and the tags are
      exactly the configured tag, "bot-conversation" and "automated". */
  lemma TicketShape(creator: TicketCreator, conversationId: string, endedBy: Object, channelId: Option<string>,
                    metadata: Option<seq<(string, Json)>>, now: string)
    ensures var t := creator.TicketFor(conversationId, endedBy, channelId, metadata, now);
      var cut := t.subject[|SubjectPrefix|..];
      && t.subject[..|SubjectPrefix|] == SubjectPrefix
      && |cut| == (if |conversationId| < 8 then |conversationId| else 8)
      && cut == conversationId[..|cut|]
      && (|conversationId| <= 8 ==> cut == conversationId)
      && t.tags == [creator.autoTag, "bot-conversation", "automated"]
      && t.priority == creator.ticketPriority && t.ticketType == creator.ticketType && t.status == "new"
      && (t.customFields.None? <==>
            conversationId == "" && !Truthy(channelId) && GetOr(endedBy, "id", JStr("unknown")) == JStr("unknown"))
  {
    SubjectShape(conversationId);
    CustomFieldsShape(conversationId, channelId, GetOr(endedBy, "id", JStr("unknown")));
  }

  lemma SubjectShape(conversationId: string)
    ensures var subject := SubjectPrefix + Take(conversationId, 8);
      var cut := subject[|SubjectPrefix|..];
      && subject[..|SubjectPrefix|] == SubjectPrefix
      && |cut| == (if |conversationId| < 8 then |conversationId| else 8)
      && cut == conversationId[..|cut|]
  {
    var subject := SubjectPrefix + Take(conversationId, 8);
    assert subject[|SubjectPrefix|..] == Take(conversationId, 8);
  }

  // ---------------------------------------------------------------------------
  // The ticket description

  function DetailLines(conversationId: string, endedBy: Object, channelId: Option<string>, now: string): seq<string> {
    [ "\U{1F916} Automated ticket created from ended bot conversation",
      "",
      "**Conversation Details:**",
      "• Conversation ID: " + conversationId,
      "• Channel ID: " + OrElse(channelId, "N/A"),
      EndedByLine(endedBy),
      "• Ended at: " + now + " UTC" ]
  }

  function EndedByLine(endedBy: Object): string {
    "• Ended by: " + Str(GetOr(endedBy, "role", JStr("unknown")))
      + " (" + Str(GetOr(endedBy, "id", JStr("N/A"))) + ")"
  }

  function MetadataLine(entry: (string, Json)): string {
    "• " + entry.0 + ": " + Str(entry.1)
  }

  function MetadataLines(entries: seq<(string, Json)>): seq<string> {
    seq(|entries|, k requires 0 <= k < |entries| => MetadataLine(entries[k]))
  }

  /** Appends one "• key: value" line per metadata entry, in order. */
  method AppendMetadataLines(lines: seq<string>, entries: seq<(string, Json)>) returns (r: seq<string>)
    ensures r == lines + MetadataLines(entries)
  {
    r := lines;
    for i := 0 to |entries|
      invariant r == lines + MetadataLines(entries[..i])
    {
      r := r + [MetadataLine(entries[i])];
      assert MetadataLines(entries[..i + 1]) == MetadataLines(entries[..i]) + [MetadataLine(entries[i])];
    }
    assert entries[..|entries|] == entries;
  }

  const NextStepLines: seq<string> := [
    "",
    "---",
    "**Next Steps:**",
    "• Review the conversation for any unresolved issues",
    "• Determine if follow-up with the customer is needed",
    "• Update ticket status once reviewed",
    "",
    "*This ticket demonstrates immediate action on conversation end events,*",
    "*eliminating the need to wait for 24-hour timeout.*"
  ]

  /** The description's lines: the conversation details, then the metadata
      section when metadata is given and non-empty, then the next steps. The
      time of the end is an input (the source reads the clock). */
  function DescriptionLines(conversationId: string, endedBy: Object, channelId: Option<string>,
                            metadata: Option<seq<(string, Json)>>, now: string): seq<string> {
    DetailLines(conversationId, endedBy, channelId, now)
    + (if metadata.Some? && metadata.value != []
       then ["", "**Conversation Metadata:**"] + MetadataLines(metadata.value)
       else [])
    + NextStepLines
  }

  /** Every line occurs in the joined text. */
  lemma AllLinesShown(lines: seq<string>)
    ensures forall j :: 0 <= j < |lines| ==> Contains(Join("\n", lines), lines[j])
  {
    forall j | 0 <= j < |lines|
      ensures Contains(Join("\n", lines), lines[j])
    {
      JoinContains("\n", lines, j);
    }
  }

  /** A text inside a line of `d` occurs in `d`. */
  lemma PartShown(d: string, line: string, pre: string, x: string, post: string)
    requires Contains(d, line) && line == pre + x + post
    ensures Contains(d, x)
  {
    ContainsMiddle(pre, x, post);
    ContainsTransitive(d, line, x);
  }

  /** A text that ends a line of `d` occurs in `d`. */
  lemma EndShown(d: string, line: string, pre: string, x: string)
    requires Contains(d, line) && line == pre + x
    ensures Contains(d, x)
  {
    ContainsEnds(pre, x);
    ContainsTransitive(d, line, x);
  }

  /** The description names the conversation id and the ender's id, and shows
      every metadata entry as "key: value". */
  lemma DescriptionMentions(conversationId: string, endedBy: Object, channelId: Option<string>,
                            metadata: Option<seq<(string, Json)>>, now: string)
    ensures var d := Join("\n", DescriptionLines(conversationId, endedBy, channelId, metadata, now));
      && Contains(d, conversationId)
      && Contains(d, Str(GetOr(endedBy, "id", JStr("N/A"))))
      && (metadata.Some? ==> forall k :: 0 <= k < |metadata.value| ==>
            Contains(d, metadata.value[k].0 + ": " + Str(metadata.value[k].1)))
  {
    var lines := DescriptionLines(conversationId, endedBy, channelId, metadata, now);
    AllLinesShown(lines);
    MentionsIn(Join("\n", lines), conversationId, endedBy, channelId, metadata, now);
  }

  /** The same, for any text in which every description line occurs. */
  lemma MentionsIn(d: string, conversationId: string, endedBy: Object, channelId: Option<string>,
                   metadata: Option<seq<(string, Json)>>, now: string)
    requires var lines := DescriptionLines(conversationId, endedBy, channelId, metadata, now);
      forall j :: 0 <= j < |lines| ==> Contains(d, lines[j])
    ensures Contains(d, conversationId)
    ensures Contains(d, Str(GetOr(endedBy, "id", JStr("N/A"))))
    ensures metadata.Some? ==> forall k :: 0 <= k < |metadata.value| ==>
      Contains(d, metadata.value[k].0 + ": " + Str(metadata.value[k].1))
  {
    var lines := DescriptionLines(conversationId, endedBy, channelId, metadata, now);
    DescriptionLinesAt(conversationId, endedBy, channelId, metadata, now);
    EndShown(d, lines[3], "• Conversation ID: ", conversationId);
    var role := Str(GetOr(endedBy, "role", JStr("unknown")));
    PartShown(d, lines[5], "• Ended by: " + role + " (", Str(GetOr(endedBy, "id", JStr("N/A"))), ")");
    if metadata.Some? && metadata.value != [] {
      var entries := metadata.value;
      forall k | 0 <= k < |entries|
        ensures Contains(d, entries[k].0 + ": " + Str(entries[k].1))
      {
        assert Contains(d, lines[9 + k]);
        MetadataLineShape(entries[k]);
        EndShown(d, lines[9 + k], "• ", entries[k].0 + ": " + Str(entries[k].1));
      }
    }
  }

  /** Where the conversation id, the ender and each metadata entry sit among
      the description's lines. */
  lemma DescriptionLinesAt(conversationId: string, endedBy: Object, channelId: Option<string>,
                           metadata: Option<seq<(string, Json)>>, now: string)
    ensures var lines := DescriptionLines(conversationId, endedBy, channelId, metadata, now);
      && |lines| > 5
      && lines[3] == "• Conversation ID: " + conversationId
      && lines[5] == "• Ended by: " + Str(GetOr(endedBy, "role", JStr("unknown"))) + " (" + Str(GetOr(endedBy, "id", JStr("N/A"))) + ")"
      && (metadata.Some? && metadata.value != [] ==>
            && 9 + |metadata.value| <= |lines|
            && forall k :: 0 <= k < |metadata.value| ==> lines[9 + k] == MetadataLine(metadata.value[k]))
  {
    var details := DetailLines(conversationId, endedBy, channelId, now);
    var lines := DescriptionLines(conversationId, endedBy, channelId, metadata, now);
    assert lines[..|details|] == details;
    assert lines[3] == details[3];
    assert lines[5] == details[5];
    if metadata.Some? && metadata.value != [] {
      var entries := metadata.value;
      assert lines == details + ["", "**Conversation Metadata:**"] + MetadataLines(entries) + NextStepLines;
      forall k | 0 <= k < |entries|
        ensures lines[9 + k] == MetadataLine(entries[k])
      {
        assert lines[9 + k] == MetadataLines(entries)[k];
      }
    }
  }

  lemma MetadataLineShape(entry: (string, Json))
    ensures MetadataLine(entry) == "• " + (entry.0 + ": " + Str(entry.1))
  {
  }
}
