/** The webhook side: the process-wide batch of pending message events with its
    single deferred flush task, the loop that delivers a flushed batch to the
    registered chat surfaces, and the handler that routes each inbound event. */
module Webhooks {
  import opened Base
  import opened Messages
  import opened ChatUi
  import opened Batch

  datatype EndedBy = EndedBy(id: Option<string>, role: string)

  datatype EndConversationData = EndConversationData(
    conversationId: string,
    channelId: string,
    endUserId: string,
    endedBy: EndedBy)

  /** An inbound event after parsing: a conversation message, a conversation
      end, or any other event type. */
  datatype Request =
    | MessageRequest(message: PostMessageRequest)
    | EndConversationRequest(data: EndConversationData)
    | GenericEventRequest(eventType: string)

  /** The pending batch and the handle of its deferred flush task. Pushing and
      flushing are each one atomic step (they run under the same lock); the
      delay before a flush and the cancellation of a superseded task are
      represented by the counters of tasks scheduled, cancelled and flushed. */
  class BatchQueue {
    var queue: seq<PostMessageRequest>
    /** Whether a flush task is outstanding. */
    var pending: bool
    ghost var scheduled: nat
    ghost var cancelled: nat
    ghost var flushed: nat
    /** Every message pushed so far, and the concatenation of the batches
        flushed so far, both in arrival order. */
    ghost var arrived: seq<PostMessageRequest>
    ghost var taken: seq<PostMessageRequest>

    /** A task is outstanding exactly while messages wait; every task ever
        scheduled was cancelled, has flushed, or is the one outstanding; and
        every message pushed was flushed once or is still waiting. */
    ghost predicate Valid()
      reads this
    {
      && (pending <==> queue != [])
      && scheduled == cancelled + flushed + (if pending then 1 else 0)
      && arrived == taken + queue
    }

    constructor ()
      ensures Valid() && queue == [] && !pending
      ensures arrived == [] && taken == [] && scheduled == 0
    {
      queue := [];
      pending := false;
      scheduled, cancelled, flushed := 0, 0, 0;
      arrived, taken := [], [];
    }

    /** Appends a message and restarts the debounce: an outstanding task is
        cancelled and a fresh one takes its place. */
    method Push(msg: PostMessageRequest)
      requires Valid()
      modifies this
      ensures Valid() && pending
      ensures queue == old(queue) + [msg]
      ensures arrived == old(arrived) + [msg] && taken == old(taken)
      ensures scheduled == old(scheduled) + 1 && flushed == old(flushed)
      ensures cancelled == old(cancelled) + (if old(pending) then 1 else 0)
    {
      queue := queue + [msg];
      if pending {
        cancelled := cancelled + 1;
      }
      pending := true;
      scheduled := scheduled + 1;
      arrived := arrived + [msg];
    }

    /** The outstanding task's flush: takes the whole queue, leaves it empty,
        clears the task handle, and returns the batch sorted by timestamp. */
    method Flush() returns (batch: seq<PostMessageRequest>)
      requires Valid() && pending
      modifies this
      ensures Valid() && queue == [] && !pending
      ensures batch == SortByTimestamp(old(queue))
      ensures taken == old(taken) + old(queue) && arrived == old(arrived)
      ensures flushed == old(flushed) + 1 && scheduled == old(scheduled) && cancelled == old(cancelled)
    {
      var messages := queue;
      queue := [];
      pending := false;
      flushed := flushed + 1;
      taken := taken + messages;
      batch := SortByTimestamp(messages);
    }
  }

  /** Nothing about a surface's input controls changes. */
  twostate predicate InputsUnchanged(ui: ChatUI)
    reads ui
  {
    && ui.inputValue == old(ui.inputValue)
    && ui.placeholder == old(ui.placeholder)
    && ui.inputEnabled == old(ui.inputEnabled)
    && ui.endButtonEnabled == old(ui.endButtonEnabled)
  }

  /** Hands one message to the surface of its conversation: dropped when no
      surface is registered or the author is the surface's own end user, a
      notification for presence, otherwise one appended message. */
  method PushMessageToChat(registry: Registry, d: Delivery)
    requires registry.Valid()
    modifies registry.chats.Values
    ensures forall ui | ui in registry.chats.Values ::
      var route := RouteFor(ui.activeConversationId, ui.activeEndUserId, d);
      && ui.messages == old(ui.messages) + (if route == Appended then [MessageOf(d)] else [])
      && ui.notifications == old(ui.notifications) + (if route == Notified then [BodyOf(d.content)] else [])
      && InputsUnchanged(ui)
  {
    var chat := registry.Get(d.conversationId);
    if chat.None? || d.userId == Some(chat.value.activeEndUserId) {
      return;
    }
    var ui := chat.value;
    if d.content.Type() == "presence" {
      ui.SendNotification(d.content.body);
    } else {
      ui.AddMessage(d.userId, d.role, d.content, d.displayName, d.avatar);
    }
  }

  /** Delivers a batch in order, one message at a time. */
  method Dispatch(registry: Registry, batch: seq<PostMessageRequest>)
    requires registry.Valid()
    modifies registry.chats.Values
    ensures forall ui | ui in registry.chats.Values ::
      && ui.messages == old(ui.messages) + Timeline(ui.activeConversationId, ui.activeEndUserId, batch)
      && ui.notifications == old(ui.notifications) + Notices(ui.activeConversationId, ui.activeEndUserId, batch)
      && InputsUnchanged(ui)
  {
    for i := 0 to |batch|
      invariant forall ui | ui in registry.chats.Values ::
        && ui.messages == old(ui.messages) + Timeline(ui.activeConversationId, ui.activeEndUserId, batch[..i])
        && ui.notifications == old(ui.notifications) + Notices(ui.activeConversationId, ui.activeEndUserId, batch[..i])
        && InputsUnchanged(ui)
    {
      assert batch[..i + 1] == batch[..i] + [batch[i]];
      forall ui | ui in registry.chats.Values
        ensures var route := RouteFor(ui.activeConversationId, ui.activeEndUserId, DeliveryOf(batch[i]));
          && Timeline(ui.activeConversationId, ui.activeEndUserId, batch[..i + 1])
             == Timeline(ui.activeConversationId, ui.activeEndUserId, batch[..i]) + (if route == Appended then [MessageOf(DeliveryOf(batch[i]))] else [])
          && Notices(ui.activeConversationId, ui.activeEndUserId, batch[..i + 1])
             == Notices(ui.activeConversationId, ui.activeEndUserId, batch[..i]) + (if route == Notified then [BodyOf(batch[i].content)] else [])
      {
        TimelineStep(ui.activeConversationId, ui.activeEndUserId, batch[..i], batch[i]);
      }
      PushMessageToChat(registry, DeliveryOf(batch[i]));
    }
    assert batch[..|batch|] == batch;
  }

  /** The outstanding task's run: flush, then deliver the sorted batch. */
  method BatchProcessMessages(q: BatchQueue, registry: Registry)
    requires q.Valid() && q.pending && registry.Valid()
    modifies q, registry.chats.Values
    ensures q.Valid() && q.queue == [] && !q.pending
    ensures q.taken == old(q.taken) + old(q.queue) && q.arrived == old(q.arrived)
    ensures forall ui | ui in registry.chats.Values ::
      && ui.messages == old(ui.messages) + Timeline(ui.activeConversationId, ui.activeEndUserId, SortByTimestamp(old(q.queue)))
      && ui.notifications == old(ui.notifications) + Notices(ui.activeConversationId, ui.activeEndUserId, SortByTimestamp(old(q.queue)))
      && InputsUnchanged(ui)
  {
    var batch := q.Flush();
    Dispatch(registry, batch);
  }

  /** The webhook endpoint: an unverified request is refused with 400; a
      message is queued; a conversation end disables the inputs of that
      conversation's surface, if any; any other event changes nothing. */
  method PostMessage(q: BatchQueue, registry: Registry, req: Request, verified: bool) returns (status: int)
    requires q.Valid() && registry.Valid()
    modifies q, registry.chats.Values
    ensures q.Valid()
    ensures status == if verified then 204 else 400
    ensures (verified && req.MessageRequest?) ==> q.queue == old(q.queue) + [req.message] && q.arrived == old(q.arrived) + [req.message]
    ensures (verified && req.MessageRequest?) ==>
      && q.pending && q.taken == old(q.taken)
      && q.scheduled == old(q.scheduled) + 1 && q.flushed == old(q.flushed)
      && q.cancelled == old(q.cancelled) + (if old(q.pending) then 1 else 0)
    ensures !(verified && req.MessageRequest?) ==>
      && q.queue == old(q.queue) && q.pending == old(q.pending)
      && q.arrived == old(q.arrived) && q.taken == old(q.taken)
      && q.scheduled == old(q.scheduled) && q.cancelled == old(q.cancelled) && q.flushed == old(q.flushed)
    ensures forall ui | ui in registry.chats.Values ::
      && ui.messages == old(ui.messages) && ui.notifications == old(ui.notifications)
      && (if verified && req.EndConversationRequest? && ui.activeConversationId == req.data.conversationId
          then ui.InputsDisabled()
          else InputsUnchanged(ui))
  {
    if !verified {
      return 400;
    }
    status := 204;
    match req
    case MessageRequest(msg) =>
      q.Push(msg);
    case EndConversationRequest(data) =>
      var chat := registry.Get(data.conversationId);
      if chat.Some? {
        chat.value.DisableChatInputs();
      }
    case GenericEventRequest(_) =>
  }
}
