/** The entities of the chat-state store (`Message`, `Attachment`, `User`,
    `Chat`, `ChatState`) and the invariants every reachable store keeps. */
module ChatModel {
  import opened Base

  /** `Message.type`. */
  datatype MessageKind = Text | Image | File | Audio | Video

  /** `Chat.type`. */
  datatype ChatKind = Group | Direct

  /** A file attached to a message; `mimeType` is the browser's `File.type`. */
  datatype Attachment = Attachment(id: string, name: string, size: nat, mimeType: string, url: string)

  /** A chat message; `createdAt` is kept as the timestamp text the client stores. */
  datatype Message = Message(
    id: string,
    chatId: string,
    content: string,
    senderId: string,
    senderName: string,
    createdAt: string,
    attachments: Option<seq<Attachment>>,
    kind: MessageKind)

  /** A roster entry. */
  datatype User = User(id: string, name: string, email: string, profilePicUrl: Option<string>, isOnline: Option<bool>)

  /** A conversation. Both reducers that create chats fill `memberDetails`, so it
      is a plain list here; `lastMessage` is a cached copy of the tail of `messages`. */
  datatype Chat = Chat(
    id: string,
    name: string,
    kind: ChatKind,
    members: seq<string>,
    memberDetails: seq<User>,
    lastMessage: Option<Message>,
    messages: seq<Message>,
    createdAt: Option<string>)

  /** The store's state: the chat list, the active chat, the cached session
      view of the active chat's messages, the roster and the loading flag. */
  datatype ChatState = ChatState(
    chats: seq<Chat>,
    activeChatId: string,
    messages: seq<Message>,
    users: seq<User>,
    isLoading: bool)

  /** The store before any action: no chats, no users, active chat `"1"`. */
  function Initial(): ChatState {
    ChatState([], "1", [], [], false)
  }

  /** The last element of a message list, absent when the list is empty
      (`ms[ms.length - 1]` is `undefined` then). */
  function Last(ms: seq<Message>): (r: Option<Message>)
    ensures r.None? <==> ms == []
    ensures r.Some? ==> r.value == ms[|ms| - 1] && r.value in ms
  {
    if ms == [] then None else Some(ms[|ms| - 1])
  }

  /** `chats.find(c => c.id === id)`, as an index. */
  function FindChat(cs: seq<Chat>, id: string): (r: Option<nat>)
    ensures r.Some? ==> r.value < |cs| && cs[r.value].id == id
    ensures r.Some? ==> forall j :: 0 <= j < r.value ==> cs[j].id != id
    ensures r.None? <==> forall j :: 0 <= j < |cs| ==> cs[j].id != id
  {
    FindFirst(cs, (c: Chat) => c.id == id)
  }

  /** A direct chat whose members include both users. */
  predicate IsDirectWith(c: Chat, a: string, b: string) {
    c.kind == Direct && a in c.members && b in c.members
  }

  /** The existing-DM lookup of `createDirectMessage`, as an index. */
  function FindDirect(cs: seq<Chat>, userId: string, currentUserId: string): (r: Option<nat>)
    ensures r.Some? ==> r.value < |cs| && IsDirectWith(cs[r.value], userId, currentUserId)
    ensures r.Some? ==> forall j :: 0 <= j < r.value ==> !IsDirectWith(cs[j], userId, currentUserId)
    ensures r.None? <==> forall j :: 0 <= j < |cs| ==> !IsDirectWith(cs[j], userId, currentUserId)
  {
    FindFirst(cs, (c: Chat) => IsDirectWith(c, userId, currentUserId))
  }

  /** Two chats agree on everything but their messages and cached last message. */
  predicate SameHeader(c: Chat, d: Chat) {
    && c.id == d.id && c.name == d.name && c.kind == d.kind
    && c.members == d.members && c.memberDetails == d.memberDetails
    && c.createdAt == d.createdAt
  }

  /** Chat `i` of `a` is chat `i` of `b` up to messages, for every `i` of `a`. */
  predicate HeadersKept(a: seq<Chat>, b: seq<Chat>) {
    |a| <= |b| && forall i :: 0 <= i < |a| ==> SameHeader(a[i], b[i])
  }

  /** No two chats share an id. */
  predicate UniqueIds(cs: seq<Chat>) {
    forall i, j :: 0 <= i < j < |cs| ==> cs[i].id != cs[j].id
  }

  /** Every chat's `lastMessage` is the tail of its `messages`. */
  predicate TailCached(cs: seq<Chat>) {
    forall i :: 0 <= i < |cs| ==> cs[i].lastMessage == Last(cs[i].messages)
  }

  /** The session view shows the active chat's messages, or nothing when no
      chat has the active id. */
  predicate SessionMirrors(s: ChatState) {
    match FindChat(s.chats, s.activeChatId)
    case Some(i) => s.messages == s.chats[i].messages
    case None => s.messages == []
  }

  /** At most one direct chat holds any pair of distinct users. */
  ghost predicate OneDirectPerPair(cs: seq<Chat>) {
    forall i, j, a, b :: 0 <= i < j < |cs| && a != b && IsDirectWith(cs[i], a, b) ==> !IsDirectWith(cs[j], a, b)
  }

  /** The store invariant. */
  ghost predicate Valid(s: ChatState) {
    UniqueIds(s.chats) && TailCached(s.chats) && SessionMirrors(s) && OneDirectPerPair(s.chats)
  }

  /** `x` is not yet the id of any chat. */
  predicate IdFree(cs: seq<Chat>, x: string) {
    forall i :: 0 <= i < |cs| ==> cs[i].id != x
  }

  /** The initial store satisfies the invariant. */
  lemma InitialValid()
    ensures Valid(Initial())
  {
  }

  /** The lookup by id depends on the headers alone: changing messages keeps it. */
  lemma HeadersDecideChat(a: seq<Chat>, b: seq<Chat>, id: string)
    requires |a| == |b| && HeadersKept(a, b)
    ensures FindChat(a, id) == FindChat(b, id)
  {
    forall j | 0 <= j < |a| ensures a[j].id == b[j].id {
      assert SameHeader(a[j], b[j]);
    }
    var fa, fb := FindChat(a, id), FindChat(b, id);
    if fa.Some? {
      assert b[fa.value].id == id;
      assert forall j :: 0 <= j < fa.value ==> b[j].id != id;
    } else {
      assert forall j :: 0 <= j < |b| ==> b[j].id != id;
    }
  }

  /** The invariants that speak only of headers depend on the headers alone. */
  lemma HeadersDecidePairs(a: seq<Chat>, b: seq<Chat>)
    requires |a| == |b| && HeadersKept(a, b)
    ensures UniqueIds(a) <==> UniqueIds(b)
    ensures OneDirectPerPair(a) <==> OneDirectPerPair(b)
  {
    assert forall i, x, y :: 0 <= i < |a| ==> (IsDirectWith(a[i], x, y) <==> IsDirectWith(b[i], x, y));
  }

  // Appending one chat: what the invariant needs of the new chat.

  lemma AppendUnique(cs: seq<Chat>, c: Chat)
    requires UniqueIds(cs) && IdFree(cs, c.id)
    ensures UniqueIds(cs + [c])
  {
    var r := cs + [c];
    forall i, j | 0 <= i < j < |r| ensures r[i].id != r[j].id {
      if j < |cs| {
        assert r[i] == cs[i] && r[j] == cs[j];
      } else {
        assert r[i] == cs[i];
      }
    }
  }

  lemma AppendTail(cs: seq<Chat>, c: Chat)
    requires TailCached(cs) && c.lastMessage == Last(c.messages)
    ensures TailCached(cs + [c])
  {
    var r := cs + [c];
    forall i | 0 <= i < |r| ensures r[i].lastMessage == Last(r[i].messages) {
      if i < |cs| {
        assert r[i] == cs[i];
      }
    }
  }

  lemma AppendFind(cs: seq<Chat>, c: Chat, id: string)
    ensures FindChat(cs, id).Some? ==> FindChat(cs + [c], id) == FindChat(cs, id)
    ensures FindChat(cs, id).None? && c.id == id ==> FindChat(cs + [c], id) == Some(|cs|)
    ensures FindChat(cs, id).None? && c.id != id ==> FindChat(cs + [c], id).None?
  {
    var r := cs + [c];
    var f := FindChat(cs, id);
    if f.Some? {
      assert r[f.value] == cs[f.value];
      assert forall j :: 0 <= j < f.value ==> r[j].id != id;
    } else {
      assert forall j :: 0 <= j < |cs| ==> r[j].id != id;
      if c.id == id {
        assert r[|cs|].id == id;
      } else {
        assert forall j :: 0 <= j < |r| ==> r[j].id != id;
      }
    }
  }

  lemma AppendPairs(cs: seq<Chat>, c: Chat)
    requires OneDirectPerPair(cs)
    requires forall j, a, b :: 0 <= j < |cs| && a != b && IsDirectWith(c, a, b) ==> !IsDirectWith(cs[j], a, b)
    ensures OneDirectPerPair(cs + [c])
  {
    var r := cs + [c];
    forall i, j, a, b | 0 <= i < j < |r| && a != b && IsDirectWith(r[i], a, b)
      ensures !IsDirectWith(r[j], a, b)
    {
      assert r[i] == cs[i];
      if j < |cs| {
        assert r[j] == cs[j];
      }
    }
  }
}
