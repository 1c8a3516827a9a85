/** The six reducers of the chat slice as transitions on `ChatState` values,
    and what they promise: each keeps the store invariant, chats are only
    ever appended, a direct chat per pair is reused rather than duplicated,
    and sent messages land at the tail of the active chat in call order. */
module ChatSlice {
  import opened Base
  import opened ChatModel

  /** The payload of `sendMessage`: a message without `id` and `createdAt`. */
  datatype Draft = Draft(
    chatId: string,
    content: string,
    senderId: string,
    senderName: string,
    attachments: Option<seq<Attachment>>,
    kind: MessageKind)

  /** The message `sendMessage` stores: the draft with its fresh id and time. */
  function Stamp(d: Draft, id: string, createdAt: string): Message {
    Message(id, d.chatId, d.content, d.senderId, d.senderName, createdAt, d.attachments, d.kind)
  }

  /** The payload of `createDirectMessage`. */
  datatype DirectParams = DirectParams(
    chatId: string,
    createdAt: Option<string>,
    currentUserId: string,
    isUserOnline: bool,
    userId: string,
    userEmail: string,
    userName: string,
    userAvatar: Option<string>)

  /** The id `createGroup` gives a group created at time `now`. */
  function GroupId(now: string): string {
    "group-" + now
  }

  // ---------------------------------------------------------------------
  // The reducers
  // ---------------------------------------------------------------------

  /** `setActiveChat`: the session view becomes the chosen chat's messages. */
  function SetActiveChat(s: ChatState, id: string): (r: ChatState)
    ensures r.activeChatId == id
    ensures r.chats == s.chats && r.users == s.users && r.isLoading == s.isLoading
    ensures SessionMirrors(r)
  {
    var found := FindChat(s.chats, id);
    s.(activeChatId := id, messages := if found.Some? then s.chats[found.value].messages else [])
  }

  /** `setMessage`: replaces the active chat's messages and the session view. */
  function SetMessage(s: ChatState, ms: seq<Message>): (r: ChatState)
    ensures FindChat(s.chats, s.activeChatId).None? ==> r == s
    ensures FindChat(s.chats, s.activeChatId).Some? ==>
      var i := FindChat(s.chats, s.activeChatId).value;
      && |r.chats| == |s.chats| && HeadersKept(s.chats, r.chats)
      && r.chats[i].messages == ms && r.chats[i].lastMessage == Last(ms)
      && (forall j :: 0 <= j < |s.chats| && j != i ==> r.chats[j] == s.chats[j])
      && r.activeChatId == s.activeChatId && r.users == s.users && r.isLoading == s.isLoading
      && r.messages == ms && SessionMirrors(r)
  {
    match FindChat(s.chats, s.activeChatId)
    case None => s
    case Some(i) =>
      var chats := s.chats[i := s.chats[i].(messages := ms, lastMessage := Last(ms))];
      HeadersDecideChat(s.chats, chats, s.activeChatId);
      s.(chats := chats, messages := ms)
  }

  /** `sendMessage`: appends the stamped draft to the chat with the ACTIVE id
      (the draft's own `chatId` plays no part) and to the session view. */
  function SendMessage(s: ChatState, d: Draft, id: string, createdAt: string): (r: ChatState)
    ensures FindChat(s.chats, s.activeChatId).None? ==> r == s
    ensures FindChat(s.chats, s.activeChatId).Some? ==>
      var i := FindChat(s.chats, s.activeChatId).value;
      var m := Stamp(d, id, createdAt);
      && |r.chats| == |s.chats| && HeadersKept(s.chats, r.chats)
      && r.chats[i].messages == s.chats[i].messages + [m] && r.chats[i].lastMessage == Some(m)
      && (forall j :: 0 <= j < |s.chats| && j != i ==> r.chats[j] == s.chats[j])
      && r.activeChatId == s.activeChatId && r.users == s.users && r.isLoading == s.isLoading
      && r.messages == s.messages + [m]
  {
    var m := Stamp(d, id, createdAt);
    match FindChat(s.chats, s.activeChatId)
    case None => s
    case Some(i) =>
      var chats := s.chats[i := s.chats[i].(messages := s.chats[i].messages + [m], lastMessage := Some(m))];
      s.(chats := chats, messages := s.messages + [m])
  }

  /** `setListOfUsers`: the roster is replaced wholesale. */
  function SetListOfUsers(s: ChatState, us: seq<User>): (r: ChatState)
    ensures r.users == us
    ensures r.chats == s.chats && r.activeChatId == s.activeChatId
    ensures r.messages == s.messages && r.isLoading == s.isLoading
  {
    s.(users := us)
  }

  /** The chat `createDirectMessage` builds when no direct chat holds the pair. */
  function NewDirectChat(p: DirectParams): Chat {
    Chat(p.chatId, p.userName, Direct, [p.currentUserId, p.userId],
         [User(p.userId, p.userName, ToLower(p.userEmail), p.userAvatar, Some(p.isUserOnline))],
         None, [], p.createdAt)
  }

  /** `createDirectMessage`: reuse and activate the first direct chat holding
      both users; otherwise append a new one and activate it. */
  function CreateDirectMessage(s: ChatState, p: DirectParams): (r: ChatState)
    ensures FindDirect(s.chats, p.userId, p.currentUserId).Some? ==>
      var j := FindDirect(s.chats, p.userId, p.currentUserId).value;
      && r.chats == s.chats
      && r.activeChatId == s.chats[j].id && r.messages == s.chats[j].messages
      && r.users == s.users && r.isLoading == s.isLoading
    ensures FindDirect(s.chats, p.userId, p.currentUserId).None? ==>
      && |r.chats| == |s.chats| + 1 && r.chats[..|s.chats|] == s.chats
      && IsDirectWith(r.chats[|s.chats|], p.userId, p.currentUserId)
      && r.chats[|s.chats|].id == p.chatId && r.chats[|s.chats|].name == p.userName
      && r.chats[|s.chats|].members == [p.currentUserId, p.userId]
      && r.chats[|s.chats|].memberDetails
           == [User(p.userId, p.userName, ToLower(p.userEmail), p.userAvatar, Some(p.isUserOnline))]
      && r.chats[|s.chats|].createdAt == p.createdAt
      && r.chats[|s.chats|].messages == [] && r.chats[|s.chats|].lastMessage.None?
      && r.activeChatId == p.chatId && r.messages == []
      && r.users == s.users && r.isLoading == s.isLoading
  {
    match FindDirect(s.chats, p.userId, p.currentUserId)
    case Some(j) => s.(activeChatId := s.chats[j].id, messages := s.chats[j].messages)
    case None =>
      var c := NewDirectChat(p);
      s.(chats := s.chats + [c], activeChatId := c.id, messages := [])
  }

  /** The roster entries `createGroup` copies into `memberDetails`. */
  function RosterOf(users: seq<User>, memberIds: seq<string>): (r: seq<User>)
    ensures forall u :: u in r <==> u in users && u.id in memberIds
    ensures |r| <= |users|
  {
    Filter(users, (u: User) => u.id in memberIds)
  }

  /** The group's roster keeps roster order: taking it from a split roster
      is taking it from each part. */
  lemma RosterOfSplit(a: seq<User>, b: seq<User>, memberIds: seq<string>)
    ensures RosterOf(a + b, memberIds) == RosterOf(a, memberIds) + RosterOf(b, memberIds)
  {
    FilterAppend(a, b, (u: User) => u.id in memberIds);
  }

  /** Every roster user is in the group's roster when every id is a member. */
  lemma RosterOfAll(users: seq<User>, memberIds: seq<string>)
    requires forall u :: u in users ==> u.id in memberIds
    ensures RosterOf(users, memberIds) == users
  {
    FilterKeepsAll(users, (u: User) => u.id in memberIds);
  }

  /** `createGroup`: appends a group chat and leaves the active chat alone. */
  function CreateGroup(s: ChatState, name: string, memberIds: seq<string>, now: string, createdAt: string): (r: ChatState)
    ensures |r.chats| == |s.chats| + 1 && r.chats[..|s.chats|] == s.chats
    ensures r.chats[|s.chats|].id == GroupId(now) && r.chats[|s.chats|].name == name
    ensures r.chats[|s.chats|].kind == Group && r.chats[|s.chats|].members == memberIds
    ensures r.chats[|s.chats|].memberDetails == RosterOf(s.users, memberIds)
    ensures forall u :: u in r.chats[|s.chats|].memberDetails <==> u in s.users && u.id in memberIds
    ensures r.chats[|s.chats|].createdAt == Some(createdAt)
    ensures r.chats[|s.chats|].messages == [] && r.chats[|s.chats|].lastMessage.None?
    ensures r.activeChatId == s.activeChatId && r.messages == s.messages
    ensures r.users == s.users && r.isLoading == s.isLoading
  {
    var g := Chat(GroupId(now), name, Group, memberIds, RosterOf(s.users, memberIds), None, [], Some(createdAt));
    s.(chats := s.chats + [g])
  }

  // ---------------------------------------------------------------------
  // Every reducer keeps the store invariant
  // ---------------------------------------------------------------------

  lemma SetActiveChatValid(s: ChatState, id: string)
    requires Valid(s)
    ensures Valid(SetActiveChat(s, id))
  {
  }

  lemma SetMessageValid(s: ChatState, ms: seq<Message>)
    requires Valid(s)
    ensures Valid(SetMessage(s, ms))
  {
    var r := SetMessage(s, ms);
    if FindChat(s.chats, s.activeChatId).Some? {
      HeadersDecidePairs(s.chats, r.chats);
    }
  }

  lemma SendMessageValid(s: ChatState, d: Draft, id: string, createdAt: string)
    requires Valid(s)
    ensures Valid(SendMessage(s, d, id, createdAt))
  {
    var r := SendMessage(s, d, id, createdAt);
    if FindChat(s.chats, s.activeChatId).Some? {
      HeadersDecidePairs(s.chats, r.chats);
      HeadersDecideChat(s.chats, r.chats, s.activeChatId);
    }
  }

  lemma SetListOfUsersValid(s: ChatState, us: seq<User>)
    requires Valid(s)
    ensures Valid(SetListOfUsers(s, us))
  {
  }

  /** A new direct chat keeps the invariant when its id is unused: the reuse
      check guarantees that no earlier direct chat holds the same pair. */
  lemma CreateDirectMessageValid(s: ChatState, p: DirectParams)
    requires Valid(s)
    requires FindDirect(s.chats, p.userId, p.currentUserId).None? ==> IdFree(s.chats, p.chatId)
    ensures Valid(CreateDirectMessage(s, p))
  {
    var r := CreateDirectMessage(s, p);
    match FindDirect(s.chats, p.userId, p.currentUserId)
    case Some(j) =>
      assert FindChat(r.chats, r.activeChatId) == Some(j);
    case None =>
      var c := NewDirectChat(p);
      assert r.chats == s.chats + [c];
      AppendUnique(s.chats, c);
      AppendTail(s.chats, c);
      AppendFind(s.chats, c, p.chatId);
      NewDirectChatFresh(s.chats, p);
      AppendPairs(s.chats, c);
  }

  /** No existing chat holds a pair of the new direct chat's members. */
  lemma NewDirectChatFresh(cs: seq<Chat>, p: DirectParams)
    requires FindDirect(cs, p.userId, p.currentUserId).None?
    ensures forall j, a, b :: 0 <= j < |cs| && a != b && IsDirectWith(NewDirectChat(p), a, b) ==> !IsDirectWith(cs[j], a, b)
  {
    forall j, a, b | 0 <= j < |cs| && a != b && IsDirectWith(NewDirectChat(p), a, b)
      ensures !IsDirectWith(cs[j], a, b)
    {
      assert {a, b} == {p.userId, p.currentUserId};
      assert !IsDirectWith(cs[j], p.userId, p.currentUserId);
    }
  }

  /** A new group keeps the invariant when its id is unused. */
  lemma CreateGroupValid(s: ChatState, name: string, memberIds: seq<string>, now: string, createdAt: string)
    requires Valid(s) && IdFree(s.chats, GroupId(now))
    ensures Valid(CreateGroup(s, name, memberIds, now, createdAt))
  {
    var r := CreateGroup(s, name, memberIds, now, createdAt);
    var g := r.chats[|s.chats|];
    assert r.chats == s.chats + [g];
    AppendUnique(s.chats, g);
    AppendTail(s.chats, g);
    AppendFind(s.chats, g, s.activeChatId);
    AppendPairs(s.chats, g);
  }

  // ---------------------------------------------------------------------
  // Actions and runs of actions
  // ---------------------------------------------------------------------

  /** A dispatched action of the chat slice, with the clock and id values
      the reducer would read supplied as data. */
  datatype Action =
    | SetActiveChatAction(id: string)
    | SetMessageAction(messages: seq<Message>)
    | SendMessageAction(draft: Draft, messageId: string, sentAt: string)
    | SetListOfUsersAction(users: seq<User>)
    | CreateDirectMessageAction(params: DirectParams)
    | CreateGroupAction(name: string, memberIds: seq<string>, now: string, createdAt: string)

  /** The reducer an action selects. */
  function Apply(s: ChatState, a: Action): ChatState {
    match a
    case SetActiveChatAction(id) => SetActiveChat(s, id)
    case SetMessageAction(ms) => SetMessage(s, ms)
    case SendMessageAction(d, id, at) => SendMessage(s, d, id, at)
    case SetListOfUsersAction(us) => SetListOfUsers(s, us)
    case CreateDirectMessageAction(p) => CreateDirectMessage(s, p)
    case CreateGroupAction(name, ids, now, at) => CreateGroup(s, name, ids, now, at)
  }

  /** Actions applied one after another, first action first. */
  function Run(s: ChatState, acts: seq<Action>): ChatState
    decreases |acts|
  {
    if acts == [] then s else Run(Apply(s, acts[0]), acts[1..])
  }

  /** An action that creates a chat uses an id no chat has yet. */
  ghost predicate FreshIds(s: ChatState, a: Action) {
    match a
    case CreateDirectMessageAction(p) =>
      FindDirect(s.chats, p.userId, p.currentUserId).None? ==> IdFree(s.chats, p.chatId)
    case CreateGroupAction(_, _, now, _) => IdFree(s.chats, GroupId(now))
    case _ => true
  }

  /** Every action of a run uses fresh ids in the state it is applied to. */
  ghost predicate FreshRun(s: ChatState, acts: seq<Action>)
    decreases |acts|
  {
    acts == [] || (FreshIds(s, acts[0]) && FreshRun(Apply(s, acts[0]), acts[1..]))
  }

  /** One action keeps the store invariant. */
  lemma ApplyValid(s: ChatState, a: Action)
    requires Valid(s) && FreshIds(s, a)
    ensures Valid(Apply(s, a))
  {
    match a
    case SetActiveChatAction(id) => SetActiveChatValid(s, id);
    case SetMessageAction(ms) => SetMessageValid(s, ms);
    case SendMessageAction(d, id, at) => SendMessageValid(s, d, id, at);
    case SetListOfUsersAction(us) => SetListOfUsersValid(s, us);
    case CreateDirectMessageAction(p) => CreateDirectMessageValid(s, p);
    case CreateGroupAction(name, ids, now, at) => CreateGroupValid(s, name, ids, now, at);
  }

  /** Every state reachable from a valid one by fresh-id actions is valid;
      with `InitialValid`, every reachable store is valid. */
  lemma {:induction false} RunValid(s: ChatState, acts: seq<Action>)
    requires Valid(s) && FreshRun(s, acts)
    ensures Valid(Run(s, acts))
    decreases |acts|
  {
    if acts != [] {
      ApplyValid(s, acts[0]);
      RunValid(Apply(s, acts[0]), acts[1..]);
    }
  }

  /** No reducer removes or reorders a chat: every existing chat keeps its
      place, id, kind and members, and the list never shrinks. */
  lemma ApplyKeepsChats(s: ChatState, a: Action)
    ensures HeadersKept(s.chats, Apply(s, a).chats)
  {
    var r := Apply(s, a);
    if a.CreateDirectMessageAction? || a.CreateGroupAction? {
      assert forall i :: 0 <= i < |s.chats| ==> r.chats[i] == r.chats[..|s.chats|][i];
    }
  }

  lemma HeadersKeptTrans(a: seq<Chat>, b: seq<Chat>, c: seq<Chat>)
    requires HeadersKept(a, b) && HeadersKept(b, c)
    ensures HeadersKept(a, c)
  {
  }

  /** Over any run, the chat list only grows at its end. */
  lemma {:induction false} RunKeepsChats(s: ChatState, acts: seq<Action>)
    ensures HeadersKept(s.chats, Run(s, acts).chats)
    decreases |acts|
  {
    if acts != [] {
      ApplyKeepsChats(s, acts[0]);
      RunKeepsChats(Apply(s, acts[0]), acts[1..]);
      HeadersKeptTrans(s.chats, Apply(s, acts[0]).chats, Run(s, acts).chats);
    }
  }

  // ---------------------------------------------------------------------
  // Direct chats are reused, sent messages are appended in order
  // ---------------------------------------------------------------------

  /** Starting a direct chat twice for the same pair of users, in either
      order, creates at most one chat: the second call finds the first. */
  lemma CreateDirectTwice(s: ChatState, p: DirectParams, q: DirectParams)
    requires {p.userId, p.currentUserId} == {q.userId, q.currentUserId}
    ensures |CreateDirectMessage(s, p).chats| <= |s.chats| + 1
    ensures CreateDirectMessage(CreateDirectMessage(s, p), q).chats == CreateDirectMessage(s, p).chats
  {
    var r := CreateDirectMessage(s, p);
    var k: nat :| k < |r.chats| && IsDirectWith(r.chats[k], p.userId, p.currentUserId);
    assert q.userId in {p.userId, p.currentUserId} && q.currentUserId in {p.userId, p.currentUserId};
    assert IsDirectWith(r.chats[k], q.userId, q.currentUserId);
  }

  /** One message to send: the draft with the id and time it will get. */
  datatype Outgoing = Outgoing(draft: Draft, messageId: string, sentAt: string)

  function SendActions(os: seq<Outgoing>): (r: seq<Action>)
    ensures |r| == |os|
  {
    if os == [] then [] else [SendMessageAction(os[0].draft, os[0].messageId, os[0].sentAt)] + SendActions(os[1..])
  }

  function Stamps(os: seq<Outgoing>): (r: seq<Message>)
    ensures |r| == |os|
  {
    if os == [] then [] else [Stamp(os[0].draft, os[0].messageId, os[0].sentAt)] + Stamps(os[1..])
  }

  /** The sends applied one after another. */
  function SendAll(s: ChatState, os: seq<Outgoing>): ChatState
    decreases |os|
  {
    if os == [] then s else SendAll(SendMessage(s, os[0].draft, os[0].messageId, os[0].sentAt), os[1..])
  }

  /** A run of sends to an existing active chat leaves that chat's messages
      and the session view extended by exactly those messages, in call order,
      with `lastMessage` the last one sent. */
  lemma SendsAppendInOrder(s: ChatState, os: seq<Outgoing>, i: nat)
    requires FindChat(s.chats, s.activeChatId) == Some(i)
    ensures var r := SendAll(s, os);
      && |r.chats| == |s.chats|
      && r.activeChatId == s.activeChatId
      && FindChat(r.chats, r.activeChatId) == Some(i)
      && r.chats[i].messages == s.chats[i].messages + Stamps(os)
      && r.messages == s.messages + Stamps(os)
      && (os != [] ==> r.chats[i].lastMessage == Some(Stamps(os)[|os| - 1]))
  {
    SendsKeepActive(s, os, i);
    SendsAppendMessages(s, os, i);
    if os != [] {
      SendsSetLast(s, os, i);
    }
  }

  /** Sends add no chat and leave the active chat where it was. */
  lemma {:induction false} SendsKeepActive(s: ChatState, os: seq<Outgoing>, i: nat)
    requires FindChat(s.chats, s.activeChatId) == Some(i)
    ensures var r := SendAll(s, os);
      |r.chats| == |s.chats| && r.activeChatId == s.activeChatId && FindChat(r.chats, r.activeChatId) == Some(i)
    decreases |os|
  {
    if os != [] {
      SendOnce(s, os[0], i);
      SendsKeepActive(SendMessage(s, os[0].draft, os[0].messageId, os[0].sentAt), os[1..], i);
    }
  }

  /** Sends extend the active chat and the session view by their messages. */
  lemma {:induction false} SendsAppendMessages(s: ChatState, os: seq<Outgoing>, i: nat)
    requires FindChat(s.chats, s.activeChatId) == Some(i)
    ensures var r := SendAll(s, os);
      && i < |r.chats|
      && r.chats[i].messages == s.chats[i].messages + Stamps(os)
      && r.messages == s.messages + Stamps(os)
    decreases |os|
  {
    SendsKeepActive(s, os, i);
    if os != [] {
      var o := os[0];
      var m := Stamp(o.draft, o.messageId, o.sentAt);
      var rest := Stamps(os[1..]);
      var s1 := SendMessage(s, o.draft, o.messageId, o.sentAt);
      SendOnce(s, o, i);
      SendsAppendMessages(s1, os[1..], i);
      StampsCons(os);
      var r := SendAll(s1, os[1..]);
      assert SendAll(s, os) == r;
      AppendOne(s.messages, m, rest, r.messages);
      AppendOne(s.chats[i].messages, m, rest, r.chats[i].messages);
    }
  }

  /** Regrouping one sent message in front of the rest of a run. */
  lemma AppendOne(xs: seq<Message>, m: Message, rest: seq<Message>, ys: seq<Message>)
    requires ys == (xs + [m]) + rest
    ensures ys == xs + ([m] + rest)
  {
  }

  /** After a non-empty run of sends, the active chat's `lastMessage` is the
      last message sent. */
  lemma {:induction false} SendsSetLast(s: ChatState, os: seq<Outgoing>, i: nat)
    requires FindChat(s.chats, s.activeChatId) == Some(i) && os != []
    ensures var r := SendAll(s, os);
      i < |r.chats| && r.chats[i].lastMessage == Some(Stamps(os)[|os| - 1])
    decreases |os|
  {
    var o := os[0];
    var s1 := SendMessage(s, o.draft, o.messageId, o.sentAt);
    SendOnce(s, o, i);
    StampsCons(os);
    assert SendAll(s, os) == SendAll(s1, os[1..]);
    if |os| == 1 {
      assert SendAll(s1, os[1..]) == s1;
    } else {
      SendsSetLast(s1, os[1..], i);
      assert Stamps(os)[|os| - 1] == Stamps(os[1..])[|os| - 2];
    }
  }

  lemma StampsCons(os: seq<Outgoing>)
    requires os != []
    ensures Stamps(os) == [Stamp(os[0].draft, os[0].messageId, os[0].sentAt)] + Stamps(os[1..])
  {
  }

  /** What one send does to the active chat, in the terms the run lemma needs. */
  lemma SendOnce(s: ChatState, o: Outgoing, i: nat)
    requires FindChat(s.chats, s.activeChatId) == Some(i)
    ensures var s1 := SendMessage(s, o.draft, o.messageId, o.sentAt);
      var m := Stamp(o.draft, o.messageId, o.sentAt);
      && |s1.chats| == |s.chats| && s1.activeChatId == s.activeChatId
      && FindChat(s1.chats, s1.activeChatId) == Some(i)
      && s1.chats[i].messages == s.chats[i].messages + [m]
      && s1.chats[i].lastMessage == Some(m)
      && s1.messages == s.messages + [m]
  {
    var s1 := SendMessage(s, o.draft, o.messageId, o.sentAt);
    HeadersDecideChat(s.chats, s1.chats, s.activeChatId);
  }

  /** Dispatching the send actions is the same as applying the sends. */
  lemma {:induction false} SendAllIsRun(s: ChatState, os: seq<Outgoing>)
    ensures Run(s, SendActions(os)) == SendAll(s, os)
    decreases |os|
  {
    if os != [] {
      var acts := SendActions(os);
      assert acts[1..] == SendActions(os[1..]);
      SendAllIsRun(SendMessage(s, os[0].draft, os[0].messageId, os[0].sentAt), os[1..]);
    }
  }
}
