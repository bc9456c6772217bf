/** The per-conversation chat surface and the process-wide registry that maps a
    conversation id to its surface. Rendering is not modelled: a surface is the
    state it renders from (its message list, the notifications it was asked to
    show and the state of its text input and end button). */
module ChatUi {
  import opened Base
  import opened Messages

  /** The name shown for an author that has no display name of its own. */
  function DefaultName(role: string): (r: string)
    ensures r == "AI Agent" <==> role == "ai_agent"
    ensures r == "Human Agent" <==> role == "human_agent"
    ensures r == "End User" <==> (role != "ai_agent" && role != "human_agent")
  {
    if role == "ai_agent" then "AI Agent"
    else if role == "human_agent" then "Human Agent"
    else "End User"
  }

  /** One entry of a surface's message list. */
  datatype Message = Message(
    role: string,
    content: Content,
    userId: Option<string>,
    name: Option<string>,
    avatar: Option<string>)
  {
    /** The label shown above a message: the author's name (or the default for
        its role) followed by its id (or its role) in parentheses. */
    function DisplayName(): (r: string)
      ensures Truthy(name) ==> |r| > |name.value| && r[..|name.value|] == name.value
      ensures !Truthy(name) ==> |r| > |DefaultName(role)| && r[..|DefaultName(role)|] == DefaultName(role)
      ensures Truthy(userId) ==> |r| >= |userId.value| + 3 && r[|r| - |userId.value| - 3..] == " (" + userId.value + ")"
      ensures !Truthy(userId) ==> |r| >= |role| + 3 && r[|r| - |role| - 3..] == " (" + role + ")"
      ensures |r| == |OrElse(name, DefaultName(role))| + |OrElse(userId, role)| + 3
    {
      var title := OrElse(name, DefaultName(role));
      var ident := OrElse(userId, role);
      LabelParts(title, ident);
      title + " (" + ident + ")"
    }
  }

  lemma LabelParts(title: string, ident: string)
    ensures var r := title + " (" + ident + ")";
            |r| == |title| + |ident| + 3 && r[..|title|] == title && r[|title|..] == " (" + ident + ")"
  {
  }

  const InputPlaceholder: string := "Type a message..."
  const EndedPlaceholder: string := "Conversation has ended"

  /** The chat surface of one conversation. */
  class ChatUI {
    const activeEndUserId: string
    const activeConversationId: string
    var messages: seq<Message>
    /** Texts passed to the notifier, oldest first. */
    var notifications: seq<string>
    var inputValue: string
    var placeholder: string
    var inputEnabled: bool
    var endButtonEnabled: bool

    /** The surface before it is registered: no messages, an enabled empty input. */
    constructor (endUserId: string, conversationId: string)
      ensures activeEndUserId == endUserId && activeConversationId == conversationId
      ensures messages == [] && notifications == []
      ensures inputValue == "" && placeholder == InputPlaceholder
      ensures inputEnabled && endButtonEnabled
    {
      activeEndUserId := endUserId;
      activeConversationId := conversationId;
      messages := [];
      notifications := [];
      inputValue := "";
      placeholder := InputPlaceholder;
      inputEnabled := true;
      endButtonEnabled := true;
    }

    /** The input controls are in their ended state. */
    predicate InputsDisabled()
      reads this
    {
      inputValue == "" && placeholder == EndedPlaceholder && !inputEnabled && !endButtonEnabled
    }

    /** Clears the input, shows the ended placeholder and disables the input and
        the end button. The new state does not depend on the old input state, so
        disabling twice gives the state disabling once gives. */
    method DisableChatInputs()
      modifies this
      ensures InputsDisabled()
      ensures messages == old(messages) && notifications == old(notifications)
    {
      inputValue := "";
      placeholder := EndedPlaceholder;
      inputEnabled := false;
      endButtonEnabled := false;
    }

    /** Appends one message; everything before it stays as it was. */
    method AddMessage(userId: Option<string>, role: string, content: Content, name: Option<string>, avatar: Option<string>)
      modifies this
      ensures messages == old(messages) + [Message(role, content, userId, name, avatar)]
      ensures notifications == old(notifications)
      ensures inputValue == old(inputValue) && placeholder == old(placeholder)
      ensures inputEnabled == old(inputEnabled) && endButtonEnabled == old(endButtonEnabled)
    {
      messages := messages + [Message(role, content, userId, name, avatar)];
    }

    /** Shows a notification; the message list is untouched. */
    method SendNotification(text: string)
      modifies this
      ensures notifications == old(notifications) + [text]
      ensures messages == old(messages)
      ensures inputValue == old(inputValue) && placeholder == old(placeholder)
      ensures inputEnabled == old(inputEnabled) && endButtonEnabled == old(endButtonEnabled)
    {
      notifications := notifications + [text];
    }
  }

  datatype Registration = Registered | AlreadyRegistered(conversationId: string)

  /** The table of live surfaces, keyed by conversation id. */
  class Registry {
    var chats: map<string, ChatUI>

    /** Every surface is filed under its own conversation id, so two keys never
        share a surface. */
    ghost predicate Valid()
      reads this
    {
      forall id :: id in chats ==> chats[id].activeConversationId == id
    }

    constructor ()
      ensures Valid() && chats == map[]
    {
      chats := map[];
    }

    /** Files `ui` under its conversation id, or refuses when that id already
        has a surface, leaving the table as it was. */
    method Register(ui: ChatUI) returns (r: Registration)
      requires Valid()
      modifies this
      ensures Valid()
      ensures old(ui.activeConversationId in chats) ==> r == AlreadyRegistered(ui.activeConversationId) && chats == old(chats)
      ensures old(ui.activeConversationId !in chats) ==> r == Registered && chats == old(chats)[ui.activeConversationId := ui]
    {
      if ui.activeConversationId in chats {
        r := AlreadyRegistered(ui.activeConversationId);
      } else {
        chats := chats[ui.activeConversationId := ui];
        r := Registered;
      }
    }

    /** The surface of a conversation, or None when none is registered. */
    function Get(conversationId: string): (r: Option<ChatUI>)
      requires Valid()
      reads this
      ensures r.Some? <==> conversationId in chats
      ensures r.Some? ==> r.value in chats.Values && r.value.activeConversationId == conversationId
    {
      if conversationId in chats then Some(chats[conversationId]) else None
    }

    /** Removes the given id if present; other entries are untouched. */
    method Unregister(conversationId: string)
      requires Valid()
      modifies this
      ensures Valid()
      ensures chats == old(chats) - {conversationId}
      ensures conversationId !in old(chats) ==> chats == old(chats)
    {
      if conversationId in chats {
        chats := chats - {conversationId};
      }
    }
  }

  /** Creating a surface registers it at once; a second surface for the same
      conversation is refused and the registry keeps the first. */
  method NewChatUI(registry: Registry, endUserId: string, conversationId: string) returns (ui: ChatUI, r: Registration)
    requires registry.Valid()
    modifies registry
    ensures registry.Valid() && fresh(ui)
    ensures ui.activeEndUserId == endUserId && ui.activeConversationId == conversationId
    ensures ui.messages == [] && ui.notifications == []
    ensures old(conversationId in registry.chats) ==> r == AlreadyRegistered(conversationId) && registry.chats == old(registry.chats)
    ensures old(conversationId !in registry.chats) ==> r == Registered && registry.chats == old(registry.chats)[conversationId := ui]
  {
    ui := new ChatUI(endUserId, conversationId);
    r := registry.Register(ui);
  }
}
