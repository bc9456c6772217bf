# Ada Conversations API demo: a Dafny model of its core

The demo is a small web application for Ada's Conversations API. It shows one
chat surface per conversation. It receives conversation webhooks: message
events and conversation-ended events. On a conversation end, the webhook
handler only disables that conversation's chat input. The repository also
holds a Zendesk ticket creator for ended conversations. Nothing in the
modelled code calls that creator or its health check. This project models four
parts of the demo and proves properties of them:

- **Message content** (`messages.dfy`): text, presence and link content, and
  their `type` tags.
- **Chat surfaces** (`chat_ui.dfy`): the label shown above each message. The
  `ChatUI` class holds the state a surface renders from: its message list, the
  notifications it was asked to show, and its input controls. The process-wide
  `Registry` maps a conversation id to its surface.
- **Webhook delivery** (`batch.dfy`, `webhooks.dfy`): incoming message events
  are batched. Each push restarts the debounce: an outstanding flush task is
  cancelled and a new one is scheduled. The `BatchQueue` class holds the queue
  and the flush-task handle. A flush sorts the batch by timestamp (a stable
  sort) and delivers each message to the surface of its conversation.
  Delivery drops the surface's own end user's echo, turns presence content
  into a notification, and appends everything else. The endpoint refuses
  unverified requests, queues messages, and disables the surface's inputs when
  a conversation ends.
- **Zendesk follow-up tickets** (`zendesk.dfy`): configuration read from the
  environment, then three gates, tried in order: enabled, configured, ended by
  the end user. Then the ticket payload with its custom fields and its
  description, the ticket link, and the health-check verdict.

`base.dfy` holds the Python behaviour the model relies on:

- truthiness of an optional string, and `x or default`;
- slicing (`s[:8]`);
- ASCII lower-casing;
- `"\n".join`;
- `str(int)`, with a parser and a round-trip proof.

Main results:

- A flushed batch is sorted, is a permutation of the queue, and keeps arrival
  order among equal timestamps. It is the only arrangement with those
  properties (`Batch.SortCharacterized`).
- Each surface receives its own share of a batch in that same sorted order
  (`Batch.FilterOfSorted`).
- Every message is dropped, notified or appended exactly once per surface
  (`Batch.RoutesPartition`).
- A batch never appends a message written by the surface's own end user
  (`Batch.NoSelfEcho`). Those messages reach the surface only through the
  page's local send, which is not modelled.
- The dispatch loop leaves every registered surface holding exactly its old
  list followed by its timeline of the batch (`Webhooks.Dispatch`).
- The queue's ghost bookkeeping shows two things. Every pushed message is
  flushed once or still waits. Every scheduled flush task was cancelled, has
  flushed, or is the one still outstanding.
- On the Zendesk side, the model proves:
  - when a ticket is attempted and what comes back;
  - the order and presence of the custom fields;
  - that the description mentions the conversation, the ender and every
    metadata entry;
  - that ticket links identify their ticket.

## Model

| member | source | states |
|---|---|---|
| Messages.Content.Type | app/data/messages.py:5-16 | text content is tagged "text" or "presence", a link "link"; the tag is "presence" exactly for presence content |
| Messages.TextContent | app/data/messages.py:8-10 | a text content built from a body alone has that body and the default "text" tag, so it is not presence |
| Messages.LinkContent | app/data/messages.py:13-16 | a link content built from a url alone has that url, no link text and the "link" tag |
| Messages.ParseTextType | app/data/messages.py:10 | a text content's tag is accepted iff it is absent, "text" or "presence"; presence exactly for "presence" |
| Messages.TextTypeRoundTrip | app/data/messages.py:10 | the tag written for a text content reads back as the same kind |
| ChatUi.DefaultName | app/webpage/chat_ui.py:18-23 | "AI Agent" iff the role is ai_agent, "Human Agent" iff human_agent, "End User" for every other role |
| ChatUi.Message.DisplayName | app/webpage/chat_ui.py:16-25 | the label is exactly the name (or the role's default name when the name is empty or absent), then " (", then the id (or the role when the id is empty or absent), then ")": it starts with the first part, ends with the second, and its length is the sum of the two plus three |
| ChatUi.ChatUI.constructor | app/webpage/chat_ui.py:28-37 | a new surface has the given end user and conversation, no messages, and an enabled, empty input with the "Type a message..." placeholder |
| ChatUi.ChatUI.DisableChatInputs | app/webpage/chat_ui.py:91-95 | afterwards the input is empty, shows "Conversation has ended", and both the input and the end button are disabled; the messages are untouched |
| ChatUi.ChatUI.AddMessage | app/webpage/chat_ui.py:97-99 | the message list grows by exactly the new message; nothing else changes |
| ChatUi.ChatUI.SendNotification | app/webpage/chat_ui.py:101-102 | the text is added to the notifications; the message list and the inputs are untouched |
| ChatUi.Registry.constructor | app/webpage/chat_ui.py:105 | the process starts with an empty registry |
| ChatUi.Registry.Register | app/webpage/chat_ui.py:108-114 | an unused conversation id gets the surface; a used one is refused and the table is unchanged; every surface stays filed under its own id |
| ChatUi.Registry.Get | app/webpage/chat_ui.py:117-119 | a surface is returned iff one is registered for the id, and it is that conversation's surface |
| ChatUi.Registry.Unregister | app/webpage/chat_ui.py:122-125 | exactly the given id is removed, if present; every other entry stays |
| ChatUi.NewChatUI | app/webpage/chat_ui.py:36-38 | a new surface starts empty and is registered under its conversation at once; a second surface for a registered conversation is refused and the first is kept |
| Webhooks.BatchQueue.constructor | app/server/webhooks.py:76-77 | the process starts with an empty queue and no flush task; nothing has been pushed, flushed or scheduled |
| Webhooks.BatchQueue.Push | app/server/webhooks.py:105-120 | the message is appended; a flush task is outstanding afterwards; the previous task is cancelled iff there was one; every pushed message is flushed once or still waits |
| Webhooks.BatchQueue.Flush | app/server/webhooks.py:123-136 | the whole queue is taken and sorted by timestamp; the queue is left empty with no task outstanding; the taken messages are logged as flushed |
| Batch.SortSortedPermutation | app/server/webhooks.py:136 | the sorted batch is in non-decreasing timestamp order and holds exactly the queued messages |
| Batch.SortStable | app/server/webhooks.py:136 | messages with equal timestamps keep their arrival order |
| Batch.SortCharacterized | app/server/webhooks.py:136 | any sorted arrangement that keeps the arrival order within each timestamp is the sorted batch |
| Batch.FilterOfSorted | app/server/webhooks.py:136-145 | the messages a surface takes from the sorted batch are its own messages, sorted |
| Batch.RoutedIff | app/server/webhooks.py:148-158 | a surface appends a message iff the message is in the batch, is for its conversation, is not from its own end user and is not presence; it notifies iff the same holds but the message is presence |
| Batch.NoSelfEcho | app/server/webhooks.py:151-153 | no appended message was authored by the surface's own end user, and none is presence |
| Batch.RoutesPartition | app/server/webhooks.py:151-158 | the dropped, notified and appended parts of a batch together are the batch, each message exactly once |
| Batch.TimelineConcat | app/server/webhooks.py:137-145 | delivering two batches one after the other gives a surface what delivering their concatenation gives |
| Batch.TimelineStep | app/server/webhooks.py:137-158 | one more message adds at most one message or one notification to a surface, as its route says |
| Webhooks.PushMessageToChat | app/server/webhooks.py:148-158 | only the surface of the message's conversation changes, and only as its route says: dropped, one notification, or one appended message; its inputs are untouched |
| Webhooks.Dispatch | app/server/webhooks.py:137-145 | every registered surface ends with its old messages followed by its timeline of the batch, and its old notifications followed by its notices, in batch order |
| Webhooks.BatchProcessMessages | app/server/webhooks.py:123-145 | after a flush and delivery the queue is empty with no task outstanding, and every surface holds its share of the batch sorted by timestamp |
| Webhooks.PostMessage | app/server/webhooks.py:81-102 | unverified requests get 400 and change nothing; otherwise 204; a message is queued and its flush task is rescheduled, with the cancel and schedule counts as in Push; a conversation end disables that conversation's surface and no other; the queue, its task and its counters change only for a message |
| Zendesk.FromEnvironment | app/integrations/zendesk.py:16-23 | subdomain, e-mail and token are the variables as set, or None when unset; enabled iff the flag is set and reads "true" in any case; tag, priority and type are the variables when set and default to "ada-bot-conversation", "normal" and "question"; configured iff subdomain, e-mail and token are all set and non-empty |
| Zendesk.TrueFlagIff | app/integrations/zendesk.py:20 | the enable flag is on exactly for the four letters t, r, u, e, each in either case |
| Zendesk.TicketCreator.SkipReason | app/integrations/zendesk.py:54-65 | a disabled creator skips first, then an unconfigured one, then a conversation not ended by its end user (an absent role included); a ticket is attempted exactly when none applies |
| Zendesk.TicketCreator.CreateTicketFromConversation | app/integrations/zendesk.py:44-83 | nothing is sent when a gate applies; otherwise the built payload is sent; a ticket comes back iff the API answered with a non-empty record that has an id; it is that record with the ticket link added under "url" |
| Zendesk.TicketCreator.BuildTicketPayload | app/integrations/zendesk.py:89-121 | the payload assembled field by field is the ticket the conversation calls for |
| Zendesk.TicketShape | app/integrations/zendesk.py:100-119 | the subject is the fixed prefix followed by the first eight characters of the conversation id (all of it when shorter); the tags are exactly the configured tag, "bot-conversation" and "automated", in that order; priority and type from the settings; status "new"; no custom fields key iff none applies |
| Zendesk.CustomFieldsShape | app/integrations/zendesk.py:109-119 | only the conversation, channel and user fields occur, in that order, each exactly when its condition holds and with its value; the list is empty iff none holds |
| Zendesk.TicketCreator.GenerateDescription | app/integrations/zendesk.py:123-161 | the description built line by line is the details, the metadata section when metadata is non-empty, and the next steps, joined by newlines |
| Zendesk.DescriptionMentions | app/integrations/zendesk.py:131-147 | the description contains the conversation id, the ender's id and every metadata entry as "key: value" |
| Zendesk.TicketCreator.TicketUrl | app/integrations/zendesk.py:163-165 | the link is the subdomain's agent ticket path followed by the ticket id |
| Zendesk.TicketUrlIdentifies | app/integrations/zendesk.py:163-165 | links to tickets with different numeric ids differ |
| Zendesk.HealthCheckIff | app/integrations/zendesk.py:204-221 | healthy only when configured; when configured, healthy exactly for the answers 200, 401 and 403 |

## Left out

- Timing and concurrency are not modelled: the two-second sleep, the asyncio
  lock, and task cancellation. Push and flush are each one atomic step, as
  the lock makes them. A cancelled task is counted, not run. A flush is
  modelled only for the task that is outstanding.
- The flush swaps out the queue under the lock, then sorts and delivers
  outside it (app/server/webhooks.py:129-145). There is no `await` between the
  swap and the end of delivery, so no push can interleave. The model therefore
  runs the flush and the delivery as one step
  (`Webhooks.BatchProcessMessages`).
- Only message, conversation-ended and generic events are handled
  (app/server/webhooks.py:95-102). The registry is a plain dictionary with no
  lock of its own (app/webpage/chat_ui.py:105).
- Webhook signature verification (svix) is a boolean input to
  `Webhooks.PostMessage`.
- Pydantic parsing and validation of the request body are not modelled. The
  handler takes an already parsed `Request`.
- `created_at`, `channel` and the request `type` literal of a message event
  are dropped. The event's `message_id` and `end_user_id`, and the ended
  event's `channel_id`, `end_user_id` and `ended_by`, are kept to mirror the
  event schema, but nothing in the model reads them. Event timestamps are
  integers, since only their order matters.
- Webhooks.Dispatch and Webhooks.BatchProcessMessages assume that all
  timestamps of a batch are mutually comparable and that surface operations
  never raise. In the source, sorting a batch that mixes timezone-naive and
  timezone-aware timestamps raises `TypeError` (app/server/webhooks.py:136).
  An exception from a surface call ends the delivery loop (lines 137-145).
  Either failure drops the undelivered rest of a batch that was already
  swapped out of the queue (lines 131-133). The model proves that the whole
  sorted batch always arrives.
- NiceGUI rendering is not modelled: bubbles, colours, scrolling, the reset
  button, and the lazily created input widgets. A surface's notifications
  record every text passed to the notifier. The notifier itself shows nothing
  for an empty text.
- A surface's duplicate registration raises `ValueError` in the source. Here
  it is the result `AlreadyRegistered`.
- app/webpage/index.py, app/ada_api.py and app/server/api.py are not part of
  this model. They hold the page and the outgoing Ada API calls. Nothing in
  the modelled files calls `unregister_chat_ui`. `Registry.Unregister` models
  the function as it is defined.
- The Zendesk HTTP calls are inputs:
  - the ticket record that `_send_ticket_to_zendesk` returns, or None;
  - the status of the health probe, or None when it raised.
  Their URLs, authentication, headers and timeouts are not modelled.
- The current time in the description is an input string, because the source
  reads the clock.
- Environment variables are a map given to `Zendesk.FromEnvironment`.
- All console output is left out.
- `Zendesk.TicketCreator.BuildTicketPayload` returns the ticket itself. The
  source wraps it as `{"ticket": ...}`.
- JSON values in `ended_by`, metadata and ticket records are scalars: null,
  booleans, integers and strings. Nested objects and lists are not modelled.
  Metadata is a list of key and value pairs in the dictionary's insertion
  order.
- `Zendesk.IsTrueFlag` lower-cases ASCII letters only. This decides the
  `== "true"` test exactly as Python's full Unicode lower-casing does, because
  no other character lower-cases to one of those four letters.
- Exceptions from the payload builder are not modelled. Nothing in it raises
  for the modelled inputs.

