/** The new-chat dialog: the user search (which never offers the signed-in
    user), starting a direct chat from the server's answer, and the roster
    it loads and normalises when it mounts. */
module NewChatDialog {
  import opened Base
  import opened ChatModel
  import ChatSlice
  import Store

  /** The user's lower-cased name or e-mail contains the lower-cased query
      (the query is not trimmed here). */
  predicate MatchesSearch(u: User, query: string) {
    Contains(ToLower(u.name), ToLower(query)) || Contains(ToLower(u.email), ToLower(query))
  }

  /** Not the signed-in user; with nobody signed in, nobody is excluded. */
  predicate NotSelf(u: User, currentUserId: Option<string>) {
    currentUserId.None? || u.id != currentUserId.value
  }

  /** The users the dialog lists, in roster order. */
  function FilteredUsers(users: seq<User>, currentUserId: Option<string>, query: string): (r: seq<User>)
    ensures forall u :: u in r <==> u in users && NotSelf(u, currentUserId) && MatchesSearch(u, query)
    ensures |r| <= |users|
  {
    Filter(users, (u: User) => NotSelf(u, currentUserId) && MatchesSearch(u, query))
  }

  /** The list keeps roster order: filtering a split roster is filtering
      each part. */
  lemma FilteredUsersSplit(a: seq<User>, b: seq<User>, currentUserId: Option<string>, query: string)
    ensures FilteredUsers(a + b, currentUserId, query)
            == FilteredUsers(a, currentUserId, query) + FilteredUsers(b, currentUserId, query)
  {
    FilterAppend(a, b, (u: User) => NotSelf(u, currentUserId) && MatchesSearch(u, query));
  }

  /** With an empty search box the list is every other user, in roster order. */
  lemma EmptySearchListsOthers(users: seq<User>, currentUserId: Option<string>)
    ensures FilteredUsers(users, currentUserId, "") == Filter(users, (u: User) => NotSelf(u, currentUserId))
  {
    forall u | u in users
      ensures (NotSelf(u, currentUserId) && MatchesSearch(u, "")) == NotSelf(u, currentUserId)
    {
      ContainsEmpty(ToLower(u.name));
    }
    FilterEquiv(users, (u: User) => NotSelf(u, currentUserId) && MatchesSearch(u, ""),
                (u: User) => NotSelf(u, currentUserId));
  }

  /** The `data` of the server's answer to the direct-chat lookup. */
  datatype DmData = DmData(serverId: Option<string>, createdAt: Option<string>, status: Option<string>)

  /** The chat id used: the server's id when it gives a non-empty one,
      otherwise `dm-` followed by the current time. */
  function ChatIdFor(data: DmData, now: string): (r: string)
    ensures data.serverId.Some? && data.serverId.value != "" ==> r == data.serverId.value
    ensures data.serverId.None? || data.serverId.value == "" ==> r == "dm-" + now
  {
    match data.serverId
    case Some(id) => if id != "" then id else "dm-" + now
    case None => "dm-" + now
  }

  /** The other user is online exactly when the answer's status is `online`. */
  function IsUserOnline(data: DmData): (b: bool)
    ensures b <==> data.status == Some("online")
  {
    data.status == Some("online")
  }

  /** The `createDirectMessage` payload for starting a chat with `user`. */
  function StartParams(data: DmData, now: string, currentUserId: string, user: User): (p: ChatSlice.DirectParams)
    ensures p.chatId == ChatIdFor(data, now) && p.createdAt == data.createdAt
    ensures p.isUserOnline == IsUserOnline(data) && p.currentUserId == currentUserId
    ensures p.userId == user.id && p.userEmail == user.email && p.userName == user.name
    ensures p.userAvatar == user.profilePicUrl
  {
    ChatSlice.DirectParams(ChatIdFor(data, now), data.createdAt, currentUserId, IsUserOnline(data),
                           user.id, user.email, user.name, user.profilePicUrl)
  }

  /** Starting a chat with the same user twice opens the chat made the first
      time: the second start adds no chat, whatever the server answers. */
  lemma StartTwiceReuses(s: ChatState, currentUserId: string, user: User,
                         d1: DmData, now1: string, d2: DmData, now2: string)
    ensures var s1 := ChatSlice.CreateDirectMessage(s, StartParams(d1, now1, currentUserId, user));
            var s2 := ChatSlice.CreateDirectMessage(s1, StartParams(d2, now2, currentUserId, user));
            s2.chats == s1.chats && |s1.chats| <= |s.chats| + 1
  {
    ChatSlice.CreateDirectTwice(s, StartParams(d1, now1, currentUserId, user), StartParams(d2, now2, currentUserId, user));
  }

  /** One entry of the fetched roster, keyed by the server's `_id`. */
  datatype FetchedUser = FetchedUser(serverId: string, name: string, email: string,
                                     profilePicUrl: Option<string>, isOnline: Option<bool>)

  /** The roster the store gets: each fetched user with `id` set to its
      server id, in the order fetched; a missing list gives an empty roster. */
  function NormaliseRoster(fetched: Option<seq<FetchedUser>>): (r: seq<User>)
    ensures fetched.None? ==> r == []
    ensures fetched.Some? ==> |r| == |fetched.value|
    ensures fetched.Some? ==> forall k :: 0 <= k < |r| ==>
      var f := fetched.value[k];
      r[k] == User(f.serverId, f.name, f.email, f.profilePicUrl, f.isOnline)
  {
    match fetched
    case None => []
    case Some(fs) =>
      seq(|fs|, k requires 0 <= k < |fs| =>
        User(fs[k].serverId, fs[k].name, fs[k].email, fs[k].profilePicUrl, fs[k].isOnline))
  }

  /** The outcome of the roster request. */
  datatype RosterResponse = FetchFailed | Fetched(users: Option<seq<FetchedUser>>)

  /** The dialog's component state. */
  class ChatDialog {
    var open: bool
    var searchQuery: string

    constructor ()
      ensures !open && searchQuery == ""
    {
      open := false;
      searchQuery := "";
    }

    /** `handleStartChat`. `data` is the lookup's answer, `None` when the
        request failed or carried no data: both end in an exception before
        the dispatch, so nothing changes. `now` is the current time. */
    method HandleStartChat(store: Store.ChatStore, currentUserId: string, user: User,
                           data: Option<DmData>, now: string)
      returns (started: bool)
      modifies this, store
      ensures started <==> data.Some?
      ensures !started ==> store.State() == old(store.State()) && open == old(open) && searchQuery == old(searchQuery)
      ensures started ==>
        && store.State() == ChatSlice.CreateDirectMessage(old(store.State()), StartParams(data.value, now, currentUserId, user))
        && !open && searchQuery == ""
      ensures started && Valid(old(store.State()))
              && ChatSlice.FreshIds(old(store.State()),
                   ChatSlice.CreateDirectMessageAction(StartParams(data.value, now, currentUserId, user)))
        ==> Valid(store.State())
    {
      if data.None? {
        return false;
      }
      store.CreateDirectMessage(StartParams(data.value, now, currentUserId, user));
      open := false;
      searchQuery := "";
      return true;
    }

    /** The roster load on mount: a failed request leaves the store alone,
        an answer replaces the roster with its normalised users. */
    method LoadRoster(store: Store.ChatStore, response: RosterResponse)
      modifies store
      ensures response.FetchFailed? ==> store.State() == old(store.State())
      ensures response.Fetched? ==>
        store.State() == ChatSlice.SetListOfUsers(old(store.State()), NormaliseRoster(response.users))
      ensures Valid(old(store.State())) ==> Valid(store.State())
    {
      if response.Fetched? {
        store.SetListOfUsers(NormaliseRoster(response.users));
      }
    }
  }
}
