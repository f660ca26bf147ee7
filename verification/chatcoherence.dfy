/** What the chat service's caches promise over whole runs. */
module ChatCoherence {
  import opened Ordering
  import opened Wrappers
  import opened ChatService

  /** A remote call, or the key of one cache running out. */
  datatype Op =
    | ListChats(user: string)
    | ListGroups(user: string)
    | ListParticipants(id: string)
    | Create(user: string, target: string, newId: string, now: int)
    | CreateG(name: string, admin: string, isPrivate: bool, users: seq<string>, newId: string, now: int)
    | Delete(id: string, user: string)
    | Clear(id: string, user: string, now: int)
    | Update(id: string, user: string, text: string, now: int)
    | ExpireChats(user: string)
    | ExpireGroups(user: string)
    | ExpireParticipants(id: string)

  /** A call that would need an identifier somebody already knows is not possible. */
  ghost function Step(s: State, op: Op): State {
    match op
    case ListChats(user) => GetChats(s, user).0
    case ListGroups(user) => GetGroups(s, user).0
    case ListParticipants(id) => GetParticipants(s, id).0
    case Create(user, target, newId, now) => if IsNew(s, newId) then CreateChat(s, user, target, newId, now).0 else s
    case CreateG(name, admin, isPrivate, users, newId, now) =>
      if IsNew(s, newId) then CreateGroup(s, name, admin, isPrivate, users, newId, now).0 else s
    case Delete(id, user) => DeleteChat(s, id, user).0
    case Clear(id, user, now) => ClearChat(s, id, user, now).0
    case Update(id, user, text, now) => UpdateLastMessage(s, id, user, text, now)
    case ExpireChats(user) => s.(chats := Drop(s.chats, {user}))
    case ExpireGroups(user) => s.(groups := Drop(s.groups, {user}))
    case ExpireParticipants(id) => s.(participants := Drop(s.participants, {id}))
  }

  ghost function Run(ops: seq<Op>): State {
    if ops == [] then EMPTY else Step(Run(ops[..|ops| - 1]), ops[|ops| - 1])
  }

  // ---------- The participants cache ----------

  ghost predicate TablesOk(t: Tables) {
    && t.members.Keys == t.groups.Keys && t.chats.Keys !! t.groups.Keys
    && (forall id | id in t.chats :: t.chats[id].user1 != t.chats[id].user2)
    && (forall id | id in t.members :: t.members[id] != [])
  }

  ghost predicate ParticipantsOk(s: State) {
    forall id | id in s.participants :: s.participants[id] == QueryParticipants(s.t, id)
  }

  /** No call but a creation or a deletion changes who takes part in what. */
  lemma UpdateKeepsParticipants(t: Tables, id: string, text: Option<string>, sender: Option<string>, now: int)
    ensures forall x :: QueryParticipants(SetLast(t, id, text, sender, now), x) == QueryParticipants(t, x)
    ensures TablesOk(t) ==> TablesOk(SetLast(t, id, text, sender, now))
  {
  }

  lemma DeleteKeepsParticipants(s: State, id: string, user: string)
    requires TablesOk(s.t)
    ensures var t := DeleteChat(s, id, user).0.t;
            && TablesOk(t) && (DeleteChat(s, id, user).1.Ok? ==> QueryParticipants(t, id) == [])
            && forall x | x != id :: QueryParticipants(t, x) == QueryParticipants(s.t, x)
  {
  }

  lemma ChatKeepsParticipants(s: State, user: string, target: string, id: string, now: int)
    requires TablesOk(s.t) && IsNew(s, id)
    ensures var s' := CreateChat(s, user, target, id, now).0;
            && TablesOk(s'.t) && s'.participants == s.participants
            && forall x | x != id :: QueryParticipants(s'.t, x) == QueryParticipants(s.t, x)
  {
    hide Existing, Pair, Less;
    PairIsSymmetric(user, target);
  }

  lemma GroupKeepsParticipants(s: State, name: string, admin: string, isPrivate: bool, users: seq<string>,
                               id: string, now: int)
    requires TablesOk(s.t) && IsNew(s, id)
    ensures var s' := CreateGroup(s, name, admin, isPrivate, users, id, now).0;
            && TablesOk(s'.t) && s'.participants == s.participants
            && forall x | x != id :: QueryParticipants(s'.t, x) == QueryParticipants(s.t, x)
  {
    hide NoRepeats, Others;
  }

  /** Only one conversation's participants change, and they are not cached. */
  lemma OneChangeKeepsParticipants(s: State, s': State, id: string)
    requires ParticipantsOk(s) && id !in s'.participants
    requires forall x | x in s'.participants :: x in s.participants && s'.participants[x] == s.participants[x]
    requires forall x | x != id :: QueryParticipants(s'.t, x) == QueryParticipants(s.t, x)
    ensures ParticipantsOk(s')
  {
  }

  lemma ParticipantsKept(s: State, op: Op)
    requires TablesOk(s.t) && ParticipantsOk(s)
    ensures TablesOk(Step(s, op).t) && ParticipantsOk(Step(s, op))
  {
    hide TablesOk, QueryParticipants, CreateChat, CreateGroup, QueryChats, QueryGroups, SetLast;
    match op
    case Create(user, target, newId, now) =>
      if IsNew(s, newId) {
        ChatKeepsParticipants(s, user, target, newId, now);
        OneChangeKeepsParticipants(s, Step(s, op), newId);
      }
    case CreateG(name, admin, isPrivate, users, newId, now) =>
      if IsNew(s, newId) {
        GroupKeepsParticipants(s, name, admin, isPrivate, users, newId, now);
        OneChangeKeepsParticipants(s, Step(s, op), newId);
      }
    case Delete(id, user) =>
      DeleteKeepsParticipants(s, id, user);
      if Step(s, op) != s {
        OneChangeKeepsParticipants(s, Step(s, op), id);
      }
    case Clear(id, user, now) => UpdateKeepsParticipants(s.t, id, None, None, now);
    case Update(id, user, text, now) => UpdateKeepsParticipants(s.t, id, Some(text), Some(user), now);
    case _ =>
  }

  /** In every run, without exception, a cached participants list is what the tables say. */
  lemma {:induction false} ParticipantsAlwaysFresh(ops: seq<Op>)
    ensures TablesOk(Run(ops).t) && ParticipantsOk(Run(ops))
  {
    if ops != [] {
      ParticipantsAlwaysFresh(ops[..|ops| - 1]);
      ParticipantsKept(Run(ops[..|ops| - 1]), ops[|ops| - 1]);
    }
  }

  // ---------- The list caches ----------

  /** The user's cached lists, if any, are what a fresh query would return. */
  ghost predicate ListsOk(s: State, user: string) {
    && (user in s.chats ==> s.chats[user] == QueryChats(s.t, user))
    && (user in s.groups ==> s.groups[user] == QueryGroups(s.t, user))
  }

  ghost predicate SameRows(t: Tables, t': Tables, user: string) {
    ChatsOf(t', user) == ChatsOf(t, user) && GroupsOf(t', user) == GroupsOf(t, user)
  }

  /** Both lists dropped, or neither written and the user's rows as they were. */
  lemma RowsKeepLists(s: State, s': State, user: string)
    requires ListsOk(s, user)
    requires user in s'.chats ==>
               user in s.chats && s'.chats[user] == s.chats[user] && ChatsOf(s'.t, user) == ChatsOf(s.t, user)
    requires user in s'.groups ==>
               user in s.groups && s'.groups[user] == s.groups[user] && GroupsOf(s'.t, user) == GroupsOf(s.t, user)
    ensures ListsOk(s', user)
  {
  }

  ghost predicate SameBut<V>(m: map<string, V>, m': map<string, V>, id: string) {
    forall x | x != id :: (x in m <==> x in m') && (x in m ==> m'[x] == m[x])
  }

  ghost predicate SameElsewhere(t: Tables, t': Tables, id: string) {
    SameBut(t.chats, t'.chats, id) && SameBut(t.groups, t'.groups, id) && SameBut(t.members, t'.members, id)
  }

  /** Rows of conversations a user takes no part in are not the user's rows. */
  lemma OthersRowsDoNotMatter(t: Tables, t': Tables, id: string, user: string)
    requires TablesOk(t) && TablesOk(t') && SameElsewhere(t, t', id)
    requires user !in QueryParticipants(t, id) && user !in QueryParticipants(t', id)
    ensures SameRows(t, t', user)
  {
    OthersChatsDoNotMatter(t, t', id, user);
    OthersGroupsDoNotMatter(t, t', id, user);
  }

  lemma OthersChatsDoNotMatter(t: Tables, t': Tables, id: string, user: string)
    requires SameElsewhere(t, t', id)
    requires user !in QueryParticipants(t, id) && user !in QueryParticipants(t', id)
    ensures ChatsOf(t', user) == ChatsOf(t, user)
  {
    assert id !in ChatsOf(t, user) && id !in ChatsOf(t', user);
  }

  lemma OthersGroupsDoNotMatter(t: Tables, t': Tables, id: string, user: string)
    requires TablesOk(t) && TablesOk(t') && SameElsewhere(t, t', id)
    requires user !in QueryParticipants(t, id) && user !in QueryParticipants(t', id)
    ensures GroupsOf(t', user) == GroupsOf(t, user)
  {
    assert id !in GroupsOf(t, user) && id !in GroupsOf(t', user);
  }

  lemma {:induction false} OthersAreMembers(members: seq<string>, admin: string)
    ensures forall m | m in Others(members, admin) :: m in members
  {
    if members != [] {
      OthersAreMembers(members[..|members| - 1], admin);
    }
  }

  lemma SameGroupRows(t: Tables, t': Tables, user: string)
    requires t'.groups == t.groups && t'.members == t.members
    ensures GroupsOf(t', user) == GroupsOf(t, user)
  {
  }

  lemma SameChatRows(t: Tables, t': Tables, user: string)
    requires t'.chats == t.chats
    ensures ChatsOf(t', user) == ChatsOf(t, user)
  {
  }

  lemma CreateKeepsLists(s: State, op: Op, x: string)
    requires TablesOk(s.t) && ListsOk(s, x) && op.Create? && IsNew(s, op.newId)
    ensures ListsOk(Step(s, op), x)
  {
    hide QueryChats, QueryGroups, ChatsOf, GroupsOf, Existing, Pair, Less;
    var s' := Step(s, op);
    ChatKeepsParticipants(s, op.user, op.target, op.newId, op.now);
    PairIsSymmetric(op.user, op.target);
    if s' != s {
      if x != op.user && x != op.target {
        OthersRowsDoNotMatter(s.t, s'.t, op.newId, x);
      } else {
        SameGroupRows(s.t, s'.t, x);
      }
      RowsKeepLists(s, s', x);
    }
  }

  lemma CreateGroupKeepsLists(s: State, op: Op, x: string)
    requires TablesOk(s.t) && ListsOk(s, x) && op.CreateG? && IsNew(s, op.newId)
    ensures ListsOk(Step(s, op), x)
  {
    hide QueryChats, QueryGroups, ChatsOf, GroupsOf, NoRepeats, Others;
    var s' := Step(s, op);
    GroupKeepsParticipants(s, op.name, op.admin, op.isPrivate, op.users, op.newId, op.now);
    OthersAreMembers(op.users, op.admin);
    if s' != s {
      if x !in QueryParticipants(s'.t, op.newId) {
        OthersRowsDoNotMatter(s.t, s'.t, op.newId, x);
      } else {
        SameChatRows(s.t, s'.t, x);
      }
      RowsKeepLists(s, s', x);
    }
  }

  /** The sender's call reaches every cached list its message changes. */
  lemma UpdateKeepsLists(s: State, id: string, user: string, text: string, now: int, x: string)
    requires TablesOk(s.t) && ParticipantsOk(s) && ListsOk(s, x)
    ensures ListsOk(UpdateLastMessage(s, id, user, text, now), x)
  {
    hide QueryChats, QueryGroups, ChatsOf, GroupsOf, TablesOk;
    var s' := UpdateLastMessage(s, id, user, text, now);
    UpdateKeepsParticipants(s.t, id, Some(text), Some(user), now);
    var users := QueryParticipants(s.t, id);
    assert GetParticipants(s.(t := SetLast(s.t, id, Some(text), Some(user), now)), id).1 == users;
    if x !in users {
      OthersRowsDoNotMatter(s.t, s'.t, id, x);
    }
    RowsKeepLists(s, s', x);
  }

  /** A member other than the user clears or deletes one of the user's conversations. */
  ghost predicate Disturbs(s: State, op: Op, user: string) {
    match op
    case Delete(id, caller) =>
      caller != user && user in QueryParticipants(s.t, id) && DeleteChat(s, id, caller).1.Ok?
    case Clear(id, caller, now) =>
      caller != user && user in QueryParticipants(s.t, id) && ClearChat(s, id, caller, now).1.Ok?
    case _ => false
  }

  lemma ClearKeepsLists(s: State, op: Op, x: string)
    requires TablesOk(s.t) && ListsOk(s, x) && op.Clear? && !Disturbs(s, op, x)
    ensures ListsOk(Step(s, op), x)
  {
    hide QueryChats, QueryGroups, ChatsOf, GroupsOf, TablesOk;
    var s' := Step(s, op);
    UpdateKeepsParticipants(s.t, op.id, None, None, op.now);
    if op.user != x && s' != s {
      hide QueryParticipants;
      OthersRowsDoNotMatter(s.t, s'.t, op.id, x);
    }
    RowsKeepLists(s, s', x);
  }

  lemma DeleteKeepsLists(s: State, op: Op, x: string)
    requires TablesOk(s.t) && ListsOk(s, x) && op.Delete? && !Disturbs(s, op, x)
    ensures ListsOk(Step(s, op), x)
  {
    hide QueryChats, QueryGroups, ChatsOf, GroupsOf, TablesOk, QueryParticipants, DeleteChat, SameElsewhere;
    var s' := Step(s, op);
    DeleteKeepsParticipants(s, op.id, op.user);
    DeleteIsLocal(s, op.id, op.user);
    if op.user != x && DeleteChat(s, op.id, op.user).1.Ok? {
      OthersRowsDoNotMatter(s.t, s'.t, op.id, x);
    }
    RowsKeepLists(s, s', x);
  }

  /** A deletion touches one conversation and its caller's lists, or nothing. */
  lemma DeleteIsLocal(s: State, id: string, user: string)
    ensures var (s', r) := DeleteChat(s, id, user);
            && SameElsewhere(s.t, s'.t, id) && (!r.Ok? ==> s' == s)
            && (r.Ok? ==> s'.chats == s.chats - {user} && s'.groups == s.groups - {user})
  {
  }

  lemma ListsKept(s: State, op: Op, x: string)
    requires TablesOk(s.t) && ParticipantsOk(s) && ListsOk(s, x) && !Disturbs(s, op, x)
    ensures ListsOk(Step(s, op), x)
  {
    hide QueryChats, QueryGroups, CreateChat, CreateGroup, DeleteChat, ClearChat, UpdateLastMessage;
    match op
    case Create(_, _, newId, _) => if IsNew(s, newId) { CreateKeepsLists(s, op, x); }
    case CreateG(_, _, _, _, newId, _) => if IsNew(s, newId) { CreateGroupKeepsLists(s, op, x); }
    case Delete(_, _) => DeleteKeepsLists(s, op, x);
    case Clear(_, _, _) => ClearKeepsLists(s, op, x);
    case Update(id, user, text, now) => UpdateKeepsLists(s, id, user, text, now, x);
    case _ =>
  }

  /** Nobody else clears or deletes a conversation of the user's. */
  ghost predicate Undisturbed(ops: seq<Op>, user: string) {
    ops == [] ||
    (Undisturbed(ops[..|ops| - 1], user) && !Disturbs(Run(ops[..|ops| - 1]), ops[|ops| - 1], user))
  }

  /** In every such run the user's cached lists are what fresh queries would return. */
  lemma {:induction false} ListsAlwaysFresh(ops: seq<Op>, user: string)
    requires Undisturbed(ops, user)
    ensures ListsOk(Run(ops), user)
  {
    if ops != [] {
      ListsAlwaysFresh(ops[..|ops| - 1], user);
      ParticipantsAlwaysFresh(ops[..|ops| - 1]);
      ListsKept(Run(ops[..|ops| - 1]), ops[|ops| - 1], user);
    }
  }
}
