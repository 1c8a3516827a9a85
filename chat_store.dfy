/** The chat slice as the store holds it: one object whose fields the
    reducers update in place. Each method makes the change its reducer makes
    (`ChatSlice` states what that change is) and keeps the store invariant. */
module Store {
  import opened Base
  import opened ChatModel
  import ChatSlice

  class ChatStore {
    var chats: seq<Chat>
    var activeChatId: string
    var messages: seq<Message>
    var users: seq<User>
    var isLoading: bool

    /** The store's fields as one value. */
    function State(): ChatState
      reads this
    {
      ChatState(chats, activeChatId, messages, users, isLoading)
    }

    /** The initial state of the slice. */
    constructor ()
      ensures State() == Initial() && Valid(State())
    {
      chats := [];
      activeChatId := "1";
      messages := [];
      users := [];
      isLoading := false;
      InitialValid();
    }

    method SetActiveChat(id: string)
      modifies this
      ensures State() == ChatSlice.SetActiveChat(old(State()), id)
      ensures Valid(old(State())) ==> Valid(State())
    {
      activeChatId := id;
      var chat := FindChat(chats, id);
      messages := if chat.Some? then chats[chat.value].messages else [];
      if Valid(old(State())) {
        ChatSlice.SetActiveChatValid(old(State()), id);
      }
    }

    method SetMessage(ms: seq<Message>)
      modifies this
      ensures State() == ChatSlice.SetMessage(old(State()), ms)
      ensures Valid(old(State())) ==> Valid(State())
    {
      var chat := FindChat(chats, activeChatId);
      if chat.Some? {
        var i := chat.value;
        chats := chats[i := chats[i].(messages := ms, lastMessage := Last(ms))];
        messages := ms;
      }
      if Valid(old(State())) {
        ChatSlice.SetMessageValid(old(State()), ms);
      }
    }

    /** `id` and `createdAt` stand for `Date.now()` and `new Date()`. */
    method SendMessage(d: ChatSlice.Draft, id: string, createdAt: string)
      modifies this
      ensures State() == ChatSlice.SendMessage(old(State()), d, id, createdAt)
      ensures Valid(old(State())) ==> Valid(State())
    {
      var m := ChatSlice.Stamp(d, id, createdAt);
      var chat := FindChat(chats, activeChatId);
      if chat.Some? {
        var i := chat.value;
        chats := chats[i := chats[i].(messages := chats[i].messages + [m], lastMessage := Some(m))];
        messages := messages + [m];
      }
      if Valid(old(State())) {
        ChatSlice.SendMessageValid(old(State()), d, id, createdAt);
      }
    }

    method SetListOfUsers(us: seq<User>)
      modifies this
      ensures State() == ChatSlice.SetListOfUsers(old(State()), us)
      ensures Valid(old(State())) ==> Valid(State())
    {
      users := us;
    }

    method CreateDirectMessage(p: ChatSlice.DirectParams)
      modifies this
      ensures State() == ChatSlice.CreateDirectMessage(old(State()), p)
      ensures Valid(old(State())) && ChatSlice.FreshIds(old(State()), ChatSlice.CreateDirectMessageAction(p))
        ==> Valid(State())
    {
      ghost var s0 := State();
      var existing := FindDirect(chats, p.userId, p.currentUserId);
      if existing.Some? {
        var j := existing.value;
        activeChatId := chats[j].id;
        messages := chats[j].messages;
      } else {
        var dm := ChatSlice.NewDirectChat(p);
        chats := chats + [dm];
        activeChatId := dm.id;
        messages := [];
      }
      assert State() == ChatSlice.CreateDirectMessage(s0, p);
      if Valid(s0) && ChatSlice.FreshIds(s0, ChatSlice.CreateDirectMessageAction(p)) {
        ChatSlice.CreateDirectMessageValid(s0, p);
      }
    }

    /** `now` and `createdAt` stand for `Date.now()` and `new Date()`. */
    method CreateGroup(name: string, memberIds: seq<string>, now: string, createdAt: string)
      modifies this
      ensures State() == ChatSlice.CreateGroup(old(State()), name, memberIds, now, createdAt)
      ensures Valid(old(State())) && IdFree(old(chats), ChatSlice.GroupId(now)) ==> Valid(State())
    {
      var group := Chat(ChatSlice.GroupId(now), name, Group, memberIds,
                        ChatSlice.RosterOf(users, memberIds), None, [], Some(createdAt));
      chats := chats + [group];
      if Valid(old(State())) && IdFree(old(chats), ChatSlice.GroupId(now)) {
        ChatSlice.CreateGroupValid(old(State()), name, memberIds, now, createdAt);
      }
    }
  }
}
