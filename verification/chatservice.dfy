/** The chat service: four tables, and three caches of what it reads from them. Each
    remote call is one atomic step; `now` is its time in milliseconds. */
module ChatService {
  import opened Ordering
  import opened Wrappers

  datatype Code = Internal | PermissionDenied

  // ---------- Tables ----------

  datatype ChatRow = ChatRow(user1: string, user2: string, lastMessage: Option<string>,
                             lastSender: Option<string>, updatedAt: int)

  datatype GroupRow = GroupRow(name: string, admin: string, isPrivate: bool, lastMessage: Option<string>,
                               lastSender: Option<string>, updatedAt: int)

  /** `members` maps a group to its users in the order of insertion. */
  datatype Tables = Tables(conversations: set<string>, chats: map<string, ChatRow>,
                           groups: map<string, GroupRow>, members: map<string, seq<string>>)

  const MAX_GROUP_NAME := 100

  predicate IsParty(row: ChatRow, user: string) {
    row.user1 == user || row.user2 == user
  }

  predicate IsMember(t: Tables, group: string, user: string) {
    group in t.members && user in t.members[group]
  }

  // ---------- Queries ----------

  /** One line of a user's chat or group list; the time is in seconds. */
  datatype View = View(id: string, name: string, lastMessage: string, lastSender: string, updatedAt: int)

  function OrEmpty(s: Option<string>): string {
    if s.Some? then s.value else ""
  }

  /** EXTRACT(EPOCH ...)::INT rounds to the nearest second. */
  function Epoch(ms: int): int {
    (ms + 500) / 1000
  }

  function ChatView(id: string, row: ChatRow, user: string): View {
    View(id, if row.user1 == user then row.user2 else row.user1,
         OrEmpty(row.lastMessage), OrEmpty(row.lastSender), Epoch(row.updatedAt))
  }

  function GroupView(id: string, row: GroupRow): View {
    View(id, row.name, OrEmpty(row.lastMessage), OrEmpty(row.lastSender), Epoch(row.updatedAt))
  }

  /** A row of a user's list with its time stamp. */
  datatype Row = Row(view: View, at: int)

  type Rows = map<string, Row>

  function ChatsOf(t: Tables, user: string): Rows {
    map id | id in t.chats && IsParty(t.chats[id], user) ::
      Row(ChatView(id, t.chats[id], user), t.chats[id].updatedAt)
  }

  function GroupsOf(t: Tables, user: string): Rows {
    map id | id in t.groups && IsMember(t, id, user) :: Row(GroupView(id, t.groups[id]), t.groups[id].updatedAt)
  }

  function StampsOf(rows: Rows): Stamps<string> {
    map id | id in rows :: rows[id].at
  }

  function Views(rows: Rows, ids: seq<string>): seq<View>
    requires forall id | id in ids :: id in rows
  {
    seq(|ids|, i requires 0 <= i < |ids| => rows[ids[i]].view)
  }

  /** The rows, latest first. */
  ghost function LatestFirst(rows: Rows): seq<View> {
    NewestFirstLists(StampsOf(rows));
    Views(rows, NewestFirst(StampsOf(rows)))
  }

  ghost function QueryChats(t: Tables, user: string): seq<View> {
    LatestFirst(ChatsOf(t, user))
  }

  ghost function QueryGroups(t: Tables, user: string): seq<View> {
    LatestFirst(GroupsOf(t, user))
  }

  function QueryParticipants(t: Tables, id: string): seq<string> {
    if id in t.chats then [t.chats[id].user1, t.chats[id].user2]
    else if id in t.members then t.members[id]
    else []
  }

  /** Line `i` of a query's list comes from row `ids[i]`. */
  lemma QueryRows(rows: Rows) returns (ids: seq<string>)
    ensures var views := LatestFirst(rows);
            && |ids| == |views| == |rows| && (forall id :: id in ids <==> id in rows)
            && (forall i | 0 <= i < |ids| :: ids[i] in rows && views[i] == rows[ids[i]].view)
            && (forall i, j | 0 <= i < j < |ids| :: rows[ids[i]].at >= rows[ids[j]].at)
  {
    var stamps := StampsOf(rows);
    NewestFirstLists(stamps);
    assert stamps.Keys == rows.Keys;
    ids := NewestFirst(stamps);
    forall i, j | 0 <= i < j < |ids| ensures rows[ids[i]].at >= rows[ids[j]].at {
      assert stamps[ids[i]] >= stamps[ids[j]];
    }
  }

  /** A list shows a row with the latest stamp first and then the others. */
  lemma LatestSplits(rows: Rows) returns (id: string)
    requires rows != map[]
    ensures id in rows && forall j | j in rows :: rows[j].at <= rows[id].at
    ensures LatestFirst(rows) == [rows[id].view] + LatestFirst(rows - {id})
  {
    var stamps := StampsOf(rows);
    assert stamps.Keys == rows.Keys && rows.Keys != {};
    id := Newest(stamps);
    assert IsNewest(stamps, id);
    assert forall j | j in rows :: stamps[j] <= stamps[id];
    assert (rows - {id}).Keys == rows.Keys - {id};
    assert stamps - {id} == StampsOf(rows - {id});
    NewestFirstLists(stamps - {id});
    ViewsSplit(rows, id, NewestFirst(stamps - {id}));
  }

  lemma ViewsSplit(rows: Rows, id: string, tail: seq<string>)
    requires id in rows && forall k | k in tail :: k in rows - {id}
    ensures Views(rows, [id] + tail) == [rows[id].view] + Views(rows - {id}, tail)
  {
  }

  ghost predicate Lists(views: seq<View>, id: string) {
    exists i :: 0 <= i < |views| && views[i].id == id
  }

  /** A user's chat list has one line for every chat the user is a party to and no other
      line, and shows the times in descending order. */
  lemma {:induction false} QueryChatsLists(t: Tables, user: string)
    ensures var views := QueryChats(t, user);
            && |views| == |ChatsOf(t, user)|
            && (forall id :: Lists(views, id) <==> id in t.chats && IsParty(t.chats[id], user))
            && (forall i, j | 0 <= i < j < |views| :: views[i].updatedAt >= views[j].updatedAt)
  {
    var rows, views := ChatsOf(t, user), QueryChats(t, user);
    var ids := QueryRows(rows);
    forall id ensures Lists(views, id) <==> id in rows {
      if id in rows {
        assert id in ids;
        var i :| 0 <= i < |ids| && ids[i] == id;
        assert views[i].id == id;
      }
    }
    forall i, j | 0 <= i < j < |views| ensures views[i].updatedAt >= views[j].updatedAt {
      assert rows[ids[i]].at >= rows[ids[j]].at;
    }
  }

  // ---------- State and calls ----------

  datatype State = State(t: Tables, chats: map<string, seq<View>>, groups: map<string, seq<View>>,
                         participants: map<string, seq<string>>)

  const EMPTY := State(Tables({}, map[], map[], map[]), map[], map[], map[])

  function Drop<V>(cache: map<string, V>, keys: set<string>): map<string, V> {
    cache - keys
  }

  /** An identifier the database hands out: nobody has used or asked about it. */
  predicate IsNew(s: State, id: string) {
    && id !in s.t.conversations && id !in s.t.chats && id !in s.t.groups
    && id !in s.t.members && id !in s.participants
  }

  ghost function GetChats(s: State, user: string): (State, seq<View>) {
    if user in s.chats then (s, s.chats[user])
    else
      var views := QueryChats(s.t, user);
      (s.(chats := s.chats[user := views]), views)
  }

  ghost function GetGroups(s: State, user: string): (State, seq<View>) {
    if user in s.groups then (s, s.groups[user])
    else
      var views := QueryGroups(s.t, user);
      (s.(groups := s.groups[user := views]), views)
  }

  function GetParticipants(s: State, id: string): (State, seq<string>) {
    if id in s.participants then (s, s.participants[id])
    else
      var users := QueryParticipants(s.t, id);
      (s.(participants := s.participants[id := users]), users)
  }

  predicate HasPair(t: Tables, pair: (string, string), id: string) {
    id in t.chats && t.chats[id].user1 == pair.0 && t.chats[id].user2 == pair.1
  }

  function NewChat(s: State, user: string, target: string, id: string, now: int): State {
    var (u1, u2) := Pair(user, target);
    State(s.t.(conversations := s.t.conversations + {id},
               chats := s.t.chats[id := ChatRow(u1, u2, None, None, now)]),
          Drop(s.chats, {user, target}), s.groups, s.participants)
  }

  ghost function Existing(t: Tables, pair: (string, string)): Option<string> {
    if exists id :: HasPair(t, pair, id) then
      var id :| HasPair(t, pair, id);
      Some(id)
    else None
  }

  /** A pair that has a chat keeps it; two equal users violate a table constraint. */
  ghost function CreateChat(s: State, user: string, target: string, id: string, now: int)
    : (State, Result<string, Code>)
  {
    var existing := Existing(s.t, Pair(user, target));
    if existing.Some? then (s, Ok(existing.value))
    else if user == target then (s, Err(Internal))
    else (NewChat(s, user, target, id, now), Ok(id))
  }

  function Others(members: seq<string>, admin: string): seq<string> {
    if members == [] then []
    else
      var rest := Others(members[..|members| - 1], admin);
      if members[|members| - 1] == admin then rest else rest + [members[|members| - 1]]
  }

  predicate NoRepeats(s: seq<string>) {
    forall i, j | 0 <= i < j < |s| :: s[i] != s[j]
  }

  lemma RepeatStays(s: seq<string>, x: string)
    ensures NoRepeats(s + [x]) <==> NoRepeats(s) && x !in s
  {
    if NoRepeats(s + [x]) {
      forall i, j | 0 <= i < j < |s| ensures s[i] != s[j] {
        assert (s + [x])[i] != (s + [x])[j];
      }
      forall i | 0 <= i < |s| ensures s[i] != x {
        assert (s + [x])[i] != (s + [x])[|s|];
      }
    }
  }

  function NewGroup(s: State, name: string, admin: string, isPrivate: bool,
                    members: seq<string>, id: string, now: int): State {
    State(s.t.(conversations := s.t.conversations + {id},
               groups := s.t.groups[id := GroupRow(name, admin, isPrivate, None, None, now)],
               members := s.t.members[id := [admin] + Others(members, admin)]),
          s.chats, Drop(s.groups, {admin} + set m | m in members), s.participants)
  }

  /** A member listed twice, or a name that is too long, aborts the transaction. */
  function CreateGroup(s: State, name: string, admin: string, isPrivate: bool,
                       members: seq<string>, id: string, now: int): (State, Result<string, Code>) {
    if |name| > MAX_GROUP_NAME || !NoRepeats(Others(members, admin)) then (s, Err(Internal))
    else (NewGroup(s, name, admin, isPrivate, members, id, now), Ok(id))
  }

  function Invalidated(s: State, id: string, user: string): State {
    s.(chats := Drop(s.chats, {user}), groups := Drop(s.groups, {user}),
       participants := Drop(s.participants, {id}))
  }

  function DeleteChat(s: State, id: string, user: string): (State, Result<bool, Code>) {
    if id in s.t.chats && IsParty(s.t.chats[id], user) then
      var t := s.t.(chats := s.t.chats - {id}, conversations := s.t.conversations - {id});
      (Invalidated(s.(t := t), id, user), Ok(true))
    else if id in s.t.groups && s.t.groups[id].admin == user then
      var t := s.t.(groups := s.t.groups - {id}, members := s.t.members - {id},
                    conversations := s.t.conversations - {id});
      (Invalidated(s.(t := t), id, user), Ok(true))
    else (s, Err(PermissionDenied))
  }

  /** An UPDATE of the last message; a trigger stamps every updated row. */
  function SetLast(t: Tables, id: string, text: Option<string>, sender: Option<string>, now: int): Tables {
    t.(chats := if id in t.chats
                then t.chats[id := t.chats[id].(lastMessage := text, lastSender := sender, updatedAt := now)]
                else t.chats,
       groups := if id in t.groups
                 then t.groups[id := t.groups[id].(lastMessage := text, lastSender := sender, updatedAt := now)]
                 else t.groups)
  }

  function ClearChat(s: State, id: string, user: string, now: int): (State, Result<bool, Code>) {
    if (id in s.t.chats && IsParty(s.t.chats[id], user)) || IsMember(s.t, id, user)
    then (Invalidated(s.(t := SetLast(s.t, id, None, None, now)), id, user), Ok(true))
    else (s, Err(PermissionDenied))
  }

  function UpdateLastMessage(s: State, id: string, sender: string, text: string, now: int): State {
    var (s1, users) := GetParticipants(s.(t := SetLast(s.t, id, Some(text), Some(sender), now)), id);
    var keys := if |users| > 0 then set u | u in users else {sender};
    s1.(chats := Drop(s1.chats, keys), groups := Drop(s1.groups, keys))
  }
}
