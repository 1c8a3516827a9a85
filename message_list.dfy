/** The message list's inbound-message callback: a message from someone else
    is appended to the session view and the result handed to `setMessage`;
    the local user's own echo is ignored. */
module MessageList {
  import opened Base
  import opened ChatModel
  import opened EventBus
  import opened ChatSocketHook
  import ChatSlice

  /** The list the callback dispatches, or `None` when it dispatches nothing. */
  function OnInbound(selfId: string, view: seq<Message>, m: Message): (r: Option<seq<Message>>)
    ensures r.None? <==> m.senderId == selfId
    ensures r.Some? ==> |r.value| == |view| + 1 && r.value[..|view|] == view && r.value[|view|] == m
  {
    if m.senderId == selfId then None else Some(view + [m])
  }

  /** The store after the callback has run on `m`. */
  function Receive(s: ChatState, selfId: string, m: Message): ChatState {
    match OnInbound(selfId, s.messages, m)
    case None => s
    case Some(ms) => ChatSlice.SetMessage(s, ms)
  }

  /** The local user's own message leaves the store as it was; so does any
      message when no chat has the active id. */
  lemma ReceiveIgnores(s: ChatState, selfId: string, m: Message)
    requires m.senderId == selfId || FindChat(s.chats, s.activeChatId).None?
    ensures Receive(s, selfId, m) == s
  {
  }

  /** Someone else's message lands at the tail of the active chat, becomes
      its `lastMessage`, extends the session view, and the store invariant
      still holds. */
  lemma ReceiveAppends(s: ChatState, selfId: string, m: Message, i: nat)
    requires Valid(s) && FindChat(s.chats, s.activeChatId) == Some(i)
    requires m.senderId != selfId
    ensures var r := Receive(s, selfId, m);
      && |r.chats| == |s.chats| && r.activeChatId == s.activeChatId
      && r.chats[i].messages == s.chats[i].messages + [m]
      && r.chats[i].lastMessage == Some(m)
      && r.messages == s.messages + [m]
      && (forall j :: 0 <= j < |s.chats| && j != i ==> r.chats[j] == s.chats[j])
      && Valid(r)
  {
    ChatSlice.SetMessageValid(s, s.messages + [m]);
  }

  /** The list subscribes to the active chat with no member callbacks: among
      inbound messages, exactly those for the active chat reach its callback. */
  lemma OnlyActiveChatReaches(ls: seq<Listener>, owner: nat, activeChatId: string, m: Message)
    requires forall l :: l in ls ==> l.owner != owner
    ensures HasCall(Deliver(ls + Registrations(owner, activeChatId, false, false), InMessage(m)), owner)
            <==> m.chatId == activeChatId
  {
    SubscriptionFilters(ls, owner, activeChatId, false, false, InMessage(m));
  }

  /** Member-list changes never reach the list, which supplies no callback for them. */
  lemma MemberEventsIgnored(ls: seq<Listener>, owner: nat, activeChatId: string, chatId: string, ids: seq<string>)
    requires forall l :: l in ls ==> l.owner != owner
    ensures !HasCall(Deliver(ls + Registrations(owner, activeChatId, false, false), InMembersAdded(chatId, ids)), owner)
    ensures !HasCall(Deliver(ls + Registrations(owner, activeChatId, false, false), InMembersRemoved(chatId, ids)), owner)
  {
    SubscriptionFilters(ls, owner, activeChatId, false, false, InMembersAdded(chatId, ids));
    SubscriptionFilters(ls, owner, activeChatId, false, false, InMembersRemoved(chatId, ids));
  }
}
