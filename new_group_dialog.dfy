/** The new-group dialog: the roster search, the member list it builds
    (kept free of duplicates), and the create button. */
module NewGroupDialog {
  import opened Base
  import opened ChatModel
  import ChatSlice
  import Store

  /** The user's lower-cased name or e-mail contains `q`. */
  predicate MatchesQuery(u: User, q: string) {
    Contains(ToLower(u.name), q) || Contains(ToLower(u.email), q)
  }

  /** The roster entries offered for a search: the whole roster for a blank
      query, otherwise the users matching the trimmed, lower-cased query, in
      roster order. */
  function Filtered(users: seq<User>, query: string): (r: seq<User>)
    ensures IsBlank(query) ==> r == users
    ensures !IsBlank(query) ==> forall u :: u in r <==> u in users && MatchesQuery(u, ToLower(Trim(query)))
    ensures |r| <= |users|
  {
    var q := ToLower(Trim(query));
    if q == [] then users
    else Filter(users, (u: User) => MatchesQuery(u, q))
  }

  /** The search keeps roster order: searching a split roster is searching
      each part. */
  lemma FilteredSplit(a: seq<User>, b: seq<User>, query: string)
    ensures Filtered(a + b, query) == Filtered(a, query) + Filtered(b, query)
  {
    var q := ToLower(Trim(query));
    if q != [] {
      FilterAppend(a, b, (u: User) => MatchesQuery(u, q));
    }
  }

  /** The roster user typed in: the first whose e-mail or name equals the
      trimmed input. */
  function FindTyped(users: seq<User>, trimmed: string): (r: Option<nat>)
    ensures r.Some? ==> r.value < |users| && (users[r.value].email == trimmed || users[r.value].name == trimmed)
    ensures r.Some? ==> forall j :: 0 <= j < r.value ==> users[j].email != trimmed && users[j].name != trimmed
    ensures r.None? <==> forall j :: 0 <= j < |users| ==> users[j].email != trimmed && users[j].name != trimmed
  {
    FindFirst(users, (u: User) => u.email == trimmed || u.name == trimmed)
  }

  /** `members` with `id` added at the end unless it is already there. */
  function AddOnce(members: seq<string>, id: string): (r: seq<string>)
    ensures id in r
    ensures id in members ==> r == members
    ensures id !in members ==> r == members + [id]
    ensures NoDup(members) ==> NoDup(r)
  {
    if id in members then members
    else
      if NoDup(members) then AppendFreshNoDup(members, id); members + [id]
      else members + [id]
  }

  /** The dialog's component state. */
  class GroupDialog {
    var open: bool
    var query: string
    var name: string
    var members: seq<string>

    /** No member id is listed twice. */
    predicate Valid()
      reads this
    {
      NoDup(members)
    }

    constructor ()
      ensures !open && query == "" && name == "" && members == []
      ensures Valid()
    {
      open := false;
      query := "";
      name := "";
      members := [];
    }

    /** `addMemberFromInput`: a blank input changes nothing; otherwise the
        first roster user named or addressed by the input joins unless
        already a member, and the search box is cleared either way. */
    method AddMemberFromInput(users: seq<User>, input: string)
      modifies this
      ensures IsBlank(input) ==> query == old(query) && members == old(members)
      ensures !IsBlank(input) ==> query == ""
      ensures !IsBlank(input) ==>
        var found := FindTyped(users, Trim(input));
        members == if found.Some? then AddOnce(old(members), users[found.value].id) else old(members)
      ensures open == old(open) && name == old(name)
      ensures old(Valid()) ==> Valid()
    {
      var trimmed := Trim(input);
      if trimmed == [] {
        return;
      }
      var found := FindTyped(users, trimmed);
      if found.Some? && users[found.value].id !in members {
        members := members + [users[found.value].id];
      }
      query := "";
    }

    /** Clicking a listed user adds it unless already a member. */
    method SelectUser(u: User)
      modifies this
      ensures members == AddOnce(old(members), u.id)
      ensures open == old(open) && query == old(query) && name == old(name)
      ensures old(Valid()) ==> Valid()
    {
      if u.id !in members {
        members := members + [u.id];
      }
    }

    /** `removeMember`: that id goes, the others stay in order. */
    method RemoveMember(id: string)
      modifies this
      ensures members == Filter(old(members), (m: string) => m != id)
      ensures forall m :: m in members <==> m in old(members) && m != id
      ensures open == old(open) && query == old(query) && name == old(name)
      ensures old(Valid()) ==> Valid()
    {
      if Valid() {
        FilterNoDup(members, (m: string) => m != id);
      }
      members := Filter(members, (m: string) => m != id);
    }

    /** `handleCreate`: with an empty name nothing happens; any other name,
        white space included, creates the group from the picked members and
        resets the dialog. `now` and `createdAt` are the creation time. */
    method HandleCreate(store: Store.ChatStore, now: string, createdAt: string)
      modifies this, store
      ensures old(name) == "" ==>
        && store.State() == old(store.State())
        && open == old(open) && query == old(query) && name == old(name) && members == old(members)
      ensures old(name) != "" ==>
        && store.State() == ChatSlice.CreateGroup(old(store.State()), old(name), old(members), now, createdAt)
        && name == "" && members == [] && !open && query == old(query)
      ensures old(Valid()) ==> Valid()
      ensures ChatModel.Valid(old(store.State())) && IdFree(old(store.chats), ChatSlice.GroupId(now))
        ==> ChatModel.Valid(store.State())
    {
      if name == "" {
        return;
      }
      store.CreateGroup(name, members, now, createdAt);
      name := "";
      members := [];
      open := false;
    }
  }

  /** Picking a user and then removing it gives back the member list. */
  lemma RemoveUndoesSelect(members: seq<string>, id: string)
    requires id !in members
    ensures Filter(AddOnce(members, id), (m: string) => m != id) == members
  {
    FilterAppend(members, [id], (m: string) => m != id);
    FilterKeepsAll(members, (m: string) => m != id);
    assert Filter([id], (m: string) => m != id) == [];
  }
}
