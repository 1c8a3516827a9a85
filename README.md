# chatlink-frontend chat core in Dafny

This is a model of the chat client's core: the chat-state store and the rules around it.

- **The chat slice.** It holds the chats, the user roster, the active chat id and a cached session view of the active chat's messages. It has six reducers: switch chat, replace messages, send, set roster, start a direct chat, and create a group.
- **The `useChatSocket` hook.** It joins a chat on the shared socket, registers three listeners filtered by chat id, and removes listeners by event name on cleanup.
- **The component logic around the store:**
  - the message composer's send guard, its payloads and its attachment list;
  - the message list's inbound-message merge;
  - the new-group dialog's search and member picking;
  - the new-chat dialog's user search, chat-id and online derivation, and roster normalisation.

## Modules

| file | module | what it holds |
|---|---|---|
| `base.dfy` | `Base` | `Option`, `find` and `filter` on sequences, and the string operations the components use (`trim` over the ECMAScript white-space set, `toLowerCase`, `includes`). |
| `chat_model.dfy` | `ChatModel` | The entities (`Message`, `Attachment`, `User`, `Chat`, `ChatState`), the initial state and the store invariant `Valid`. |
| `chat_slice.dfy` | `ChatSlice` | Each reducer as a function on `ChatState`, with its contract; lemmas that every reducer keeps `Valid`; runs of actions; append-only chats; direct-chat reuse; in-order sends. |
| `chat_store.dfy` | `Store` | `ChatStore`, a class whose methods update its fields in place, each tied to its reducer function. |
| `event_bus.dfy` | `EventBus` | The shared socket as a class (`Socket`) with an outbound log and a listener table, and `Deliver`, which gives the callbacks an inbound event triggers. |
| `chat_socket_hook.dfy` | `ChatSocketHook` | The effect body, its cleanup and a re-run, what reaches a subscriber, and the two-subscriber finding below. |
| `message_input.dfy` | `MessageInput` | `Composer`: send guard, emitted event, dispatched draft, attachments. |
| `message_list.dfy` | `MessageList` | The inbound-message callback and its effect on the store. |
| `new_group_dialog.dfy` | `NewGroupDialog` | `GroupDialog`: search filter, a duplicate-free member list, and create. |
| `new_chat_dialog.dfy` | `NewChatDialog` | `ChatDialog`: user filter, starting a direct chat, and roster load. |

### The store invariant

`ChatModel.Valid` has four parts:

- chat ids are unique;
- every chat's `lastMessage` is the tail of its `messages`;
- the session view equals the messages of the chat with the active id, or is empty when no chat has that id;
- at most one direct chat holds any pair of distinct users.

Every reducer keeps `Valid`. For the two creating reducers this needs one assumption: the new chat's id (`group-<time>`, or the server's id, or `dm-<time>`) must not already be in use.

### Where the empty-name check lives

The `createGroup` reducer (`src/store/slices/chatSlice.ts:160-178`) accepts any name, including the empty one. The empty-name check is in the dialog (`src/components/chat/NewGroupDialog.tsx:59`), so `ChatSlice.CreateGroup` has no name check and `NewGroupDialog.GroupDialog.HandleCreate` has it.

## Model

| member | source | states |
|---|---|---|
| `Base.Trim` | src/components/chat/NewGroupDialog.tsx:28 | `trim` returns a contiguous piece of the input with no white space at either end; the result is empty exactly when the input is blank. |
| `Base.TrimCutsBlank` | src/components/chat/NewGroupDialog.tsx:28 | `trim` cuts off white space only: in the input, what precedes and what follows the result is blank. |
| `Base.ToLower` | src/components/chat/NewGroupDialog.tsx:28 | `toLowerCase` keeps the length and lower-cases each character. |
| `Base.Contains` | src/components/chat/NewGroupDialog.tsx:32-33 | `includes` holds exactly when the query occurs at some position of the string. |
| `ChatModel.Last` | src/store/slices/chatSlice.ts:73-74 | `ms[ms.length - 1]` is absent exactly for an empty list, and is otherwise the last element. |
| `ChatModel.FindChat` | src/store/slices/chatSlice.ts:63 | The lookup by id finds the first chat with that id; it finds none exactly when no chat has it. |
| `ChatModel.FindDirect` | src/store/slices/chatSlice.ts:124-129 | The lookup finds the first direct chat whose members include both users; it finds none exactly when no such chat exists. |
| `ChatModel.InitialValid` | src/store/slices/chatSlice.ts:49-55 | The initial store (no chats, active id `"1"`) satisfies the store invariant. |
| `ChatSlice.SetActiveChat` | src/store/slices/chatSlice.ts:61-65 | The active id becomes the argument and the session view mirrors that chat, or is empty. Chats, roster and loading flag are unchanged. |
| `ChatSlice.SetMessage` | src/store/slices/chatSlice.ts:66-77 | With no active chat the state is unchanged. Otherwise that chat gets the new messages, with `lastMessage` the new tail, and so does the session view. Other chats and all headers are unchanged. |
| `ChatSlice.SendMessage` | src/store/slices/chatSlice.ts:78-94 | The stamped message is appended to the chat found by the active id (not the payload's chat id) and to the session view, and becomes `lastMessage`. Other chats are untouched. It is a no-op when no chat has the active id. |
| `ChatSlice.SetListOfUsers` | src/store/slices/chatSlice.ts:95-98 | The roster is replaced wholesale; chats, active id and session view are unchanged. |
| `ChatSlice.CreateDirectMessage` | src/store/slices/chatSlice.ts:99-159 | **Reuse case:** chats unchanged; the found chat becomes active and the session view shows its messages. **New case:** exactly one chat is appended with the given id, the other user's name, kind direct, members `[current, other]`, one roster entry carrying the other user's id, name, lower-cased e-mail, avatar and online flag, the given `createdAt`, and no messages. It becomes active and the session view is empty. |
| `ChatSlice.RosterOf` | src/store/slices/chatSlice.ts:173 | A roster user is in the group's `memberDetails` exactly when its id is among the member ids; the list is no longer than the roster. |
| `ChatSlice.RosterOfSplit` | src/store/slices/chatSlice.ts:173 | The group's `memberDetails` keep roster order: taking them from a split roster is taking them from each part in turn. |
| `ChatSlice.RosterOfAll` | src/store/slices/chatSlice.ts:173 | When every roster user's id is a member id, `memberDetails` is the whole roster, in order and with repeats. |
| `ChatSlice.CreateGroup` | src/store/slices/chatSlice.ts:160-178 | Exactly one group chat is appended, with id `group-<time>`, the given name and members, `memberDetails` equal to `RosterOf` of the roster (roster order kept), the creation time, and no messages. The active id and session view are unchanged. |
| `ChatSlice.SetActiveChatValid` | src/store/slices/chatSlice.ts:61-65 | Switching chats keeps the store invariant. |
| `ChatSlice.SetMessageValid` | src/store/slices/chatSlice.ts:66-77 | Replacing messages keeps the store invariant, including the cached tail. |
| `ChatSlice.SendMessageValid` | src/store/slices/chatSlice.ts:78-94 | Sending keeps the store invariant. |
| `ChatSlice.SetListOfUsersValid` | src/store/slices/chatSlice.ts:95-98 | Setting the roster keeps the store invariant. |
| `ChatSlice.CreateDirectMessageValid` | src/store/slices/chatSlice.ts:123-158 | Starting a direct chat with an unused id keeps the invariant. In particular, a pair of users never gets a second direct chat. |
| `ChatSlice.CreateGroupValid` | src/store/slices/chatSlice.ts:160-178 | Creating a group with an unused id keeps the invariant. |
| `ChatSlice.ApplyValid` | src/store/slices/chatSlice.ts:60-178 | Any one action with fresh ids keeps the invariant. |
| `ChatSlice.RunValid` | src/store/slices/chatSlice.ts:60-178 | Any sequence of actions with fresh ids keeps the invariant. |
| `ChatSlice.ApplyKeepsChats` | src/store/slices/chatSlice.ts:60-178 | No reducer removes or reorders a chat or changes its header; the list never shrinks. |
| `ChatSlice.RunKeepsChats` | src/store/slices/chatSlice.ts:60-178 | Over any run of actions the chat list only grows at its end. |
| `ChatSlice.CreateDirectTwice` | src/store/slices/chatSlice.ts:123-135 | Starting a direct chat twice for the same pair, in either order, adds at most one chat; the second call reuses it. |
| `ChatSlice.SendsAppendInOrder` | src/store/slices/chatSlice.ts:88-93 | After a run of sends, the active chat and the session view are extended by exactly those messages in call order, and `lastMessage` is the last one sent. |
| `ChatSlice.SendAllIsRun` | src/store/slices/chatSlice.ts:78-94 | Dispatching a list of send actions is the same as applying the sends one by one. |
| `Store.ChatStore.constructor` | src/store/slices/chatSlice.ts:49-55 | The store starts in the initial state, which is valid. |
| `Store.ChatStore.SetActiveChat` | src/store/slices/chatSlice.ts:61-65 | The in-place update produces the reducer's result and keeps the invariant. |
| `Store.ChatStore.SetMessage` | src/store/slices/chatSlice.ts:66-77 | The in-place update produces the reducer's result and keeps the invariant. |
| `Store.ChatStore.SendMessage` | src/store/slices/chatSlice.ts:78-94 | The two `push`es produce the reducer's result and keep the invariant. |
| `Store.ChatStore.SetListOfUsers` | src/store/slices/chatSlice.ts:95-98 | The roster field is replaced, giving the reducer's result and keeping the invariant. |
| `Store.ChatStore.CreateDirectMessage` | src/store/slices/chatSlice.ts:99-159 | Reuse or append, as the reducer does; the invariant is kept when the id is fresh. |
| `Store.ChatStore.CreateGroup` | src/store/slices/chatSlice.ts:160-178 | The `push` gives the reducer's result; the invariant is kept when the id is fresh. |
| `EventBus.CallFor` | src/hooks/use-chatSocket.ts:19-37 | The message callback receives the message, and the member callbacks receive the event's id list. |
| `EventBus.Deliver` | src/hooks/use-chatSocket.ts:19-37 | Each call made for an event is that event's call to some subscriber; there are never more calls than listeners. |
| `EventBus.DeliverReaches` | src/hooks/use-chatSocket.ts:19-37 | A subscriber's callback runs for an event exactly when one of its listeners has the event's name, matches its chat and has a callback. |
| `EventBus.DeliverAppend` | src/hooks/use-chatSocket.ts:19-37 | Delivery follows registration order: earlier listeners' calls come first. |
| `EventBus.WithoutEvent` | src/hooks/use-chatSocket.ts:40-42 | `off(name)` drops every listener for that name, whoever registered it, and keeps all others. |
| `EventBus.WithoutHandler` | src/hooks/use-chatSocket.ts:40-42 | `off(name, handler)` drops only that subscriber's listener for the name. |
| `EventBus.Socket.constructor` | src/context/socketContext.tsx:15-19 | A new socket has emitted nothing and has no listeners. |
| `EventBus.Socket.Emit` | src/hooks/use-chatSocket.ts:17 | The emitted event is added at the end of the outbound log; listeners are unchanged. |
| `EventBus.Socket.On` | src/hooks/use-chatSocket.ts:19-37 | The listener is registered after the existing ones. |
| `EventBus.Socket.Off` | src/hooks/use-chatSocket.ts:40-42 | The table loses every listener for that name. |
| `EventBus.Socket.OffHandler` | src/hooks/use-chatSocket.ts:40-42 | The table loses only that subscriber's listener for the name. |
| `ChatSocketHook.Registrations` | src/hooks/use-chatSocket.ts:19-37 | One run registers three listeners, all for the subscribed chat and the run's owner. |
| `ChatSocketHook.Subscribe` | src/hooks/use-chatSocket.ts:14-37 | With no socket or an empty chat id, nothing is emitted or registered. Otherwise exactly one `chat:join` with the chat and user is emitted, and the three listeners are appended. |
| `ChatSocketHook.OffAll` | src/hooks/use-chatSocket.ts:39-43 | After the three `off` calls, no listener for the three names is left. |
| `ChatSocketHook.Cleanup` | src/hooks/use-chatSocket.ts:39-43 | The cleanup removes every listener for the three names on the shared socket and emits nothing. |
| `ChatSocketHook.Rerun` | src/hooks/use-chatSocket.ts:44-51 | A dependency change runs the previous cleanup before the effect, so the table is the cleaned table plus the new registrations. |
| `ChatSocketHook.RegistrationsFire` | src/hooks/use-chatSocket.ts:19-37 | A run's listeners fire exactly for events about its chat, and for member changes only when that callback was supplied. |
| `ChatSocketHook.SubscriptionFilters` | src/hooks/use-chatSocket.ts:19-37 | Whatever else is registered, a subscription's callbacks run for an event if and only if the event is about its chat and the matching callback exists. |
| `ChatSocketHook.CleanupSilences` | src/hooks/use-chatSocket.ts:39-43 | After the cleanup, no callback of anyone runs for any inbound event. |
| `ChatSocketHook.RegistrationsDeliver` | src/hooks/use-chatSocket.ts:19-37 | One run's listeners make exactly the one call the subscription accepts, or none. |
| `ChatSocketHook.RerunDelivers` | src/hooks/use-chatSocket.ts:39-51 | After a re-run on the same socket, for example on a chat switch, an event reaches only the re-run subscription, and only when it accepts the event. Events for the old chat reach nobody. |
| `ChatSocketHook.SiblingRerunDropsListener` | src/hooks/use-chatSocket.ts:39-43 | As written: when one of two subscriptions to the same chat re-runs, the other one stops receiving that chat's messages. |
| `ChatSocketHook.ReleaseOwn` | src/hooks/use-chatSocket.ts:39-43 | Corrected cleanup: it drops exactly the subscriber's own listeners for the three names. |
| `ChatSocketHook.CleanupOwn` | src/hooks/use-chatSocket.ts:39-43 | Corrected cleanup as three `off(name, handler)` calls. |
| `ChatSocketHook.RerunScoped` | src/hooks/use-chatSocket.ts:44-51 | A re-run with the corrected cleanup. |
| `ChatSocketHook.ScopedRerunKeepsOthers` | src/hooks/use-chatSocket.ts:39-43 | With the corrected cleanup, a re-run leaves every other subscriber's deliveries as they were. |
| `ChatSocketHook.ScopedSiblingRerunKeepsListener` | src/hooks/use-chatSocket.ts:39-43 | Corrected: the other subscription still receives the message after the re-run. |
| `MessageInput.AcceptType` | src/components/chat/MessageInput.tsx:87-98 | `image`, `video` and `audio` map to `<kind>/*`; anything else maps to `*/*`. |
| `MessageInput.CanSend` | src/components/chat/MessageInput.tsx:35 | A send goes ahead exactly when there is a socket and the text is not blank or an attachment is pending. |
| `MessageInput.MediaUrl` | src/components/chat/MessageInput.tsx:41 | `mediaUrl` is the last attachment's URL, and is absent exactly when there are no attachments. |
| `MessageInput.OrElse` | src/components/chat/MessageInput.tsx:48-49 | A falsy (empty) value falls back to the default; any other value is kept. |
| `MessageInput.DraftFor` | src/components/chat/MessageInput.tsx:44-53 | The draft uses the active chat and the text, with sender fallbacks `"1"` and `"You"`. Its kind is `file` exactly when attachments are non-empty (otherwise `text`), and its attachments are absent exactly when the list is empty. |
| `MessageInput.ToAttachments` | src/components/chat/MessageInput.tsx:104-110 | One attachment per selected file, in order, carrying the file's name, size and type. |
| `MessageInput.WithoutAttachment` | src/components/chat/MessageInput.tsx:119-121 | An attachment survives exactly when its id differs. |
| `MessageInput.WithoutAttachmentSplit` | src/components/chat/MessageInput.tsx:119-121 | Removal keeps the surviving attachments in their order. |
| `MessageInput.RemoveUndoesAttach` | src/components/chat/MessageInput.tsx:112-121 | Removing an attachment just added, under a new id, restores the earlier list. |
| `MessageInput.Composer.constructor` | src/components/chat/MessageInput.tsx:25-26 | The composer starts with empty text and no attachments. |
| `MessageInput.Composer.HandleSend` | src/components/chat/MessageInput.tsx:34-57 | When the guard fails, there is no emit, no dispatch and no clearing. Otherwise exactly one `chat:message` is emitted with the raw user id and `mediaUrl`, the store applies `sendMessage` to the draft, and the text and attachments are cleared. The store invariant is kept. |
| `MessageInput.Composer.HandleFileChange` | src/components/chat/MessageInput.tsx:100-112 | The new attachments go after the existing ones; a missing file list changes nothing. |
| `MessageInput.Composer.RemoveAttachment` | src/components/chat/MessageInput.tsx:119-121 | The attachment list loses exactly the entries with that id. |
| `MessageList.OnInbound` | src/components/chat/MessageList.tsx:18-23 | The user's own message dispatches nothing. Any other message dispatches the session view with the message appended: same prefix, one longer. |
| `MessageList.ReceiveIgnores` | src/components/chat/MessageList.tsx:18 | The user's own message, or any message when no chat is active, leaves the store unchanged. |
| `MessageList.ReceiveAppends` | src/components/chat/MessageList.tsx:19-23 | Through `setMessage`, another user's message is appended to the active chat and becomes its `lastMessage`. The session view grows by it, other chats are untouched and the invariant holds. |
| `MessageList.OnlyActiveChatReaches` | src/components/chat/MessageList.tsx:17 | Exactly the inbound messages for the active chat reach the list's callback. |
| `MessageList.MemberEventsIgnored` | src/components/chat/MessageList.tsx:17 | Member-list events never reach the list, which supplies no callback for them. |
| `NewGroupDialog.Filtered` | src/components/chat/NewGroupDialog.tsx:27-35 | A blank query offers the whole roster. Otherwise a user is offered exactly when the lower-cased name or e-mail contains the trimmed, lower-cased query. |
| `NewGroupDialog.FilteredSplit` | src/components/chat/NewGroupDialog.tsx:30-34 | The offered users keep roster order. |
| `NewGroupDialog.FindTyped` | src/components/chat/NewGroupDialog.tsx:40-42 | The typed-in user is the first whose e-mail or name equals the trimmed input; there is none exactly when no user matches. |
| `NewGroupDialog.AddOnce` | src/components/chat/NewGroupDialog.tsx:130-133 | The id ends up in the list, appended only when absent; a duplicate-free list stays duplicate-free. |
| `NewGroupDialog.GroupDialog.constructor` | src/components/chat/NewGroupDialog.tsx:20-23 | The dialog starts closed, with an empty query, name and member list. |
| `NewGroupDialog.GroupDialog.AddMemberFromInput` | src/components/chat/NewGroupDialog.tsx:37-46 | A blank input changes nothing, and the query is kept. Otherwise the first matching user is added if absent, and the query is cleared whether or not a user matched. Members stay duplicate-free. |
| `NewGroupDialog.GroupDialog.SelectUser` | src/components/chat/NewGroupDialog.tsx:130-133 | A clicked user is added only if absent, so members stay duplicate-free. |
| `NewGroupDialog.GroupDialog.RemoveMember` | src/components/chat/NewGroupDialog.tsx:55-56 | That id leaves the list; the others stay, in order, still without duplicates. |
| `NewGroupDialog.GroupDialog.HandleCreate` | src/components/chat/NewGroupDialog.tsx:58-64 | An empty name does nothing. Any other name, including a white-space-only one, dispatches `createGroup` with the picked members and resets the name, members and open flag. |
| `NewGroupDialog.RemoveUndoesSelect` | src/components/chat/NewGroupDialog.tsx:55-56 | Removing a just-picked id restores the member list. |
| `NewChatDialog.FilteredUsers` | src/components/chat/NewChatDialog.tsx:39-45 | A user is listed exactly when they are not the signed-in user and their lower-cased name or e-mail contains the lower-cased query. The signed-in user is never listed. |
| `NewChatDialog.FilteredUsersSplit` | src/components/chat/NewChatDialog.tsx:39-45 | The list keeps roster order: filtering a split roster is filtering each part in turn. |
| `NewChatDialog.EmptySearchListsOthers` | src/components/chat/NewChatDialog.tsx:39-45 | With an empty query, the list is every user but the signed-in one, in roster order. |
| `NewChatDialog.ChatIdFor` | src/components/chat/NewChatDialog.tsx:53 | The chat id is the server's non-empty `_id`, or else `dm-<time>`. |
| `NewChatDialog.IsUserOnline` | src/components/chat/NewChatDialog.tsx:59 | The other user is online exactly when the status is `"online"`. |
| `NewChatDialog.StartParams` | src/components/chat/NewChatDialog.tsx:54-64 | The `createDirectMessage` payload carries the derived id and online flag, the signed-in user's id, and the other user's id, e-mail, name and avatar. |
| `NewChatDialog.StartTwiceReuses` | src/components/chat/NewChatDialog.tsx:47-69 | Starting a chat with the same user twice adds no second chat, whatever the server answers. |
| `NewChatDialog.NormaliseRoster` | src/components/chat/NewChatDialog.tsx:76-79 | Each fetched user becomes the same record with `id` set to its `_id`, in order; a missing list gives an empty roster. |
| `NewChatDialog.ChatDialog.constructor` | src/components/chat/NewChatDialog.tsx:31-32 | The dialog starts closed, with an empty search. |
| `NewChatDialog.ChatDialog.HandleStartChat` | src/components/chat/NewChatDialog.tsx:47-69 | With no answer data nothing changes. Otherwise the store applies `createDirectMessage` to the derived payload, and the dialog closes with its search cleared. |
| `NewChatDialog.ChatDialog.LoadRoster` | src/components/chat/NewChatDialog.tsx:71-93 | A failed request leaves the store alone; an answer replaces the roster with the normalised users. |

## Left out

- The socket.io transport: connecting, the connect and disconnect logging, `disconnect`, and the server's behaviour. The socket is an abstract bus; inbound events are given to `Deliver` as arguments.
- HTTP requests. The answers to the user-list and direct-chat requests are parameters. The cancel token in `NewChatDialog` is created but never passed to the request, so it has no effect and is not modelled.
- Clocks, randomness and blob URLs. The values from `Date.now()` and `new Date()` are string parameters, and so are the attachment ids and object URLs (`idOf`, `urlOf`). Those values might collide: the store invariant is proved for fresh chat ids only, and attachment ids are not assumed distinct.
- React scheduling. Each effect re-run is an explicit `Rerun` call. Which renders trigger a re-run is not modelled. Neither is the stale closure over `messages` in the message list's callback: `MessageList.OnInbound` takes the session view it is given.
- The DOM and the UI: the keyboard handlers (which only call the modelled operations), toasts, scrolling, rendering, and the `disabled` state of the send button.
- The message input's own `useChatSocket` callback (`src/components/chat/MessageInput.tsx:59-71`). It attaches a click listener to the send button for each inbound message, and the cleanup function it returns is discarded. Its subscription is modelled as a second subscriber of the hook; the DOM listeners it adds are not.
- `ChatModel.ChatState.activeChatId`: declared `string | null`, but no reducer sets `null` and the initial value is `"1"`, so it is a plain string.
- `useChatSocket`'s `onNewMessage` is optional, but it is called without a check. Both callers supply it, so the `chat:message` listener always has a callback.
- A missing signed-in user in the message input and the message list. `handleSend` (`src/components/chat/MessageInput.tsx:39`) and the hook calls (`MessageInput.tsx:59`, `MessageList.tsx:17`) read `user.id` and throw on a null user, so the model takes the user as present there.
- NewChatDialog.ChatDialog.HandleStartChat: does not model a missing signed-in user. `handleStartChat` reads `currentUser?.id` (`NewChatDialog.tsx:49`, `NewChatDialog.tsx:58`) and does not throw: with nobody signed in it dispatches `createDirectMessage` with an undefined `currentUserId`. The model takes a string id; only the new-chat user filter (`NewChatDialog.FilteredUsers`) takes an optional current user.
- `Base.ToLower` lower-cases the ASCII letters only; JavaScript's `toLowerCase` also maps non-ASCII letters.
- `isLoading` is never changed by any reducer; it is carried along unchanged.

## Findings

| source | as written | input that shows it | evidently intended | confidence | as-written member | corrected member |
|---|---|---|---|---|---|---|
| src/hooks/use-chatSocket.ts:39-43 | The cleanup calls `socket.off(name)` for its three events. That removes every listener with those names on the shared socket, including other components' listeners. The message list (`MessageList.tsx:17`) and the message input (`MessageInput.tsx:59`) both subscribe to the active chat with inline callbacks, so each of them re-runs the effect on every render. | Both subscribe to chat `c`. The input re-renders (one keystroke), so its effect re-runs. A message for `c` from another user then reaches only the input's callback, and the list never appends it. | Each cleanup removes only its own handlers (`socket.off(name, handler)`), so other subscribers keep receiving. | not executed; the removal follows from the socket.io `off(name)` semantics | `ChatSocketHook.SiblingRerunDropsListener` | `ChatSocketHook.ScopedSiblingRerunKeepsListener` |
