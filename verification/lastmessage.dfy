/** The old repository: messages, the last-message column kept beside them in chats and
    groups, and a cache of message lists. Each call is one atomic step. */
module LastMessage {
  import opened Ordering
  import opened Wrappers

  // ---------- Tables ----------

  datatype Message = Message(conversation: string, sender: string, text: string, createdAt: int)

  type Messages = map<string, Message>

  /** The denormalised columns of a chat or group. */
  datatype Last = Last(text: Option<string>, sender: Option<string>)

  const NO_LAST := Last(None, None)

  datatype ChatRow = ChatRow(user1: string, user2: string, last: Last)

  datatype GroupRow = GroupRow(admin: string, members: set<string>, last: Last)

  /** One line of a message list; `username` is empty for an unknown sender. */
  datatype Line = Line(id: string, message: Message, username: string)

  /** `clock` is the time of the last message. */
  datatype State = State(users: map<string, string>, conversations: set<string>, messages: Messages,
                         chats: map<string, ChatRow>, groups: map<string, GroupRow>,
                         cache: map<string, seq<Line>>, clock: int)

  function MessagesOf(messages: Messages, chat: string): Messages {
    map id | id in messages && messages[id].conversation == chat :: messages[id]
  }

  function StampsOf(messages: Messages): Stamps<string> {
    map id | id in messages :: messages[id].createdAt
  }

  function NameOf(users: map<string, string>, user: string): string {
    if user in users then users[user] else ""
  }

  function Lines(messages: Messages, users: map<string, string>, ids: seq<string>): seq<Line>
    requires forall id | id in ids :: id in messages
  {
    seq(|ids|, i requires 0 <= i < |ids| =>
      Line(ids[i], messages[ids[i]], NameOf(users, messages[ids[i]].sender)))
  }

  ghost function InOrder(messages: Messages, users: map<string, string>): seq<Line> {
    OldestFirstLists(StampsOf(messages));
    Lines(messages, users, OldestFirst(StampsOf(messages)))
  }

  /** The messages of a conversation, oldest first. */
  ghost function QueryMessages(messages: Messages, users: map<string, string>, chat: string): seq<Line> {
    InOrder(MessagesOf(messages, chat), users)
  }

  /** The newest message of a conversation, if any. */
  ghost function NewestOf(messages: Messages, chat: string): Option<Message> {
    var stamps := StampsOf(MessagesOf(messages, chat));
    if stamps == map[] then None else Some(messages[Newest(stamps)])
  }

  function TextOf(m: Option<Message>): string {
    if m.Some? then m.value.text else ""
  }

  // ---------- Calls ----------

  ghost function GetMessages(s: State, chat: string): (State, seq<Line>) {
    if chat in s.cache then (s, s.cache[chat])
    else
      var lines := QueryMessages(s.messages, s.users, chat);
      (s.(cache := s.cache[chat := lines]), lines)
  }

  /** The UPDATE statements of both tables. */
  function SetLast(s: State, chat: string, last: Last): State {
    s.(chats := if chat in s.chats then s.chats[chat := s.chats[chat].(last := last)] else s.chats,
       groups := if chat in s.groups then s.groups[chat := s.groups[chat].(last := last)] else s.groups)
  }

  function Uncached(s: State, chat: string): State {
    s.(cache := s.cache - {chat})
  }

  /** The message table refuses unknown conversations and senders. Groups are updated only
      when no chat was. */
  function AddMessage(s: State, chat: string, sender: string, text: string, id: string, now: int)
    : (State, Option<string>)
  {
    if chat !in s.conversations || sender !in s.users then (s, None)
    else
      var last := Last(Some(text), Some(sender));
      var t := s.(messages := s.messages[id := Message(chat, sender, text, now)], clock := now);
      var u := if chat in t.chats then t.(chats := t.chats[chat := t.chats[chat].(last := last)])
               else if chat in t.groups then t.(groups := t.groups[chat := t.groups[chat].(last := last)])
               else t;
      (Uncached(u, chat), Some(id))
  }

  /** What the columns get from the newest message left; an empty text counts as none. */
  function LastFrom(newest: Option<Message>): Last {
    if TextOf(newest) == "" then NO_LAST else Last(Some(newest.value.text), Some(newest.value.sender))
  }

  ghost function DeleteMessage(s: State, id: string, sender: string): (State, Option<string>) {
    if id !in s.messages || s.messages[id].sender != sender then (s, None)
    else
      var chat := s.messages[id].conversation;
      var t := s.(messages := s.messages - {id});
      (Uncached(SetLast(t, chat, LastFrom(NewestOf(t.messages, chat))), chat), Some(chat))
  }

  function Without(messages: Messages, chat: string): Messages {
    map id | id in messages && messages[id].conversation != chat :: messages[id]
  }

  predicate TakesPart(s: State, chat: string, user: string) {
    || (chat in s.chats && (s.chats[chat].user1 == user || s.chats[chat].user2 == user))
    || (chat in s.groups && user in s.groups[chat].members)
  }

  function ClearChat(s: State, chat: string, user: string): (State, Option<()>) {
    if !TakesPart(s, chat, user) then (s, None)
    else (Uncached(SetLast(s.(messages := Without(s.messages, chat)), chat, NO_LAST), chat), Some(()))
  }

  function Erased(s: State, chat: string): State {
    Uncached(s.(messages := Without(s.messages, chat), conversations := s.conversations - {chat}), chat)
  }

  function DeleteChat(s: State, chat: string, user: string): (State, Option<()>) {
    if chat in s.chats && (s.chats[chat].user1 == user || s.chats[chat].user2 == user)
    then (Erased(s.(chats := s.chats - {chat}), chat), Some(()))
    else if chat in s.groups && s.groups[chat].admin == user
    then (Erased(s.(groups := s.groups - {chat}), chat), Some(()))
    else (s, None)
  }

  predicate HasPair(s: State, pair: (string, string), id: string) {
    id in s.chats && s.chats[id].user1 == pair.0 && s.chats[id].user2 == pair.1
  }

  /** A pair that has a chat keeps it; the chat table refuses unknown and equal users. */
  ghost function CreateChat(s: State, user: string, target: string, id: string): State {
    var pair := Pair(user, target);
    if (exists c :: HasPair(s, pair, c)) || user == target || user !in s.users || target !in s.users then s
    else s.(conversations := s.conversations + {id}, chats := s.chats[id := ChatRow(pair.0, pair.1, NO_LAST)])
  }

  function CreateGroup(s: State, admin: string, members: set<string>, id: string): State {
    if admin !in s.users then s
    else s.(conversations := s.conversations + {id},
            groups := s.groups[id := GroupRow(admin, members + {admin}, NO_LAST)])
  }

  // ---------- Runs ----------

  datatype Op =
    | Read(chat: string)
    | Add(chat: string, sender: string, text: string, newId: string, now: int)
    | Delete(id: string, sender: string)
    | Clear(chat: string, user: string)
    | DeleteC(chat: string, user: string)
    | NewChat(user: string, target: string, newId: string)
    | NewGroup(admin: string, members: set<string>, newId: string)
    | Expire(chat: string)

  /** Identifiers the database hands out are new, and time moves forward. */
  ghost function Step(s: State, op: Op): State {
    match op
    case Read(chat) => GetMessages(s, chat).0
    case Add(chat, sender, text, newId, now) =>
      if newId in s.messages || now <= s.clock then s else AddMessage(s, chat, sender, text, newId, now).0
    case Delete(id, sender) => DeleteMessage(s, id, sender).0
    case Clear(chat, user) => ClearChat(s, chat, user).0
    case DeleteC(chat, user) => DeleteChat(s, chat, user).0
    case NewChat(user, target, newId) =>
      if newId in s.conversations then s else CreateChat(s, user, target, newId)
    case NewGroup(admin, members, newId) =>
      if newId in s.conversations then s else CreateGroup(s, admin, members, newId)
    case Expire(chat) => Uncached(s, chat)
  }

  ghost function Run(users: map<string, string>, ops: seq<Op>): State {
    if ops == [] then State(users, {}, map[], map[], map[], map[], 0)
    else Step(Run(users, ops[..|ops| - 1]), ops[|ops| - 1])
  }

  // ---------- The last-message column and the cache ----------

  /** A column shows the newest message's text, and its sender unless the text is empty. */
  ghost predicate Shows(last: Last, newest: Option<Message>) {
    && (if last.text.Some? then last.text.value else "") == TextOf(newest)
    && (TextOf(newest) != "" ==> last.sender == Some(newest.value.sender))
  }

  ghost predicate ColumnsOk(s: State) {
    && (forall c | c in s.chats :: c in s.conversations && Shows(s.chats[c].last, NewestOf(s.messages, c)))
    && (forall c | c in s.groups :: c in s.conversations && Shows(s.groups[c].last, NewestOf(s.messages, c)))
  }

  ghost predicate CacheOk(s: State) {
    forall c | c in s.cache :: s.cache[c] == QueryMessages(s.messages, s.users, c)
  }

  ghost predicate MessagesOk(s: State) {
    && (forall id | id in s.messages ::
          s.messages[id].conversation in s.conversations && s.messages[id].createdAt <= s.clock)
    && s.chats.Keys !! s.groups.Keys
  }

  ghost predicate Inv(s: State) {
    ColumnsOk(s) && CacheOk(s) && MessagesOk(s)
  }

  /** Only one conversation's messages, columns and cache entry change. */
  ghost predicate OnlyChat(s: State, t: State, chat: string) {
    && t.users == s.users
    && (forall c | c != chat :: MessagesOf(t.messages, c) == MessagesOf(s.messages, c))
    && (forall c | c != chat && c in t.chats :: c in s.chats && t.chats[c] == s.chats[c] && c in t.conversations)
    && (forall c | c != chat && c in t.groups :: c in s.groups && t.groups[c] == s.groups[c] && c in t.conversations)
    && (forall c | c in t.cache :: c != chat && c in s.cache && t.cache[c] == s.cache[c])
  }

  lemma SameMessages(messages: Messages, messages': Messages, c: string)
    requires MessagesOf(messages', c) == MessagesOf(messages, c)
    ensures NewestOf(messages', c) == NewestOf(messages, c)
  {
    var stamps := StampsOf(MessagesOf(messages, c));
    if stamps != map[] {
      assert Newest(stamps) in MessagesOf(messages, c) && Newest(stamps) in MessagesOf(messages', c);
      assert MessagesOf(messages, c)[Newest(stamps)] == MessagesOf(messages', c)[Newest(stamps)];
    }
  }

  lemma OneChatKept(s: State, t: State, chat: string)
    requires Inv(s) && OnlyChat(s, t, chat) && MessagesOk(t)
    requires chat in t.chats ==> chat in t.conversations && Shows(t.chats[chat].last, NewestOf(t.messages, chat))
    requires chat in t.groups ==> chat in t.conversations && Shows(t.groups[chat].last, NewestOf(t.messages, chat))
    ensures Inv(t)
  {
    forall c | c in t.chats && c != chat ensures Shows(t.chats[c].last, NewestOf(t.messages, c)) {
      SameMessages(s.messages, t.messages, c);
    }
    forall c | c in t.groups && c != chat ensures Shows(t.groups[c].last, NewestOf(t.messages, c)) {
      SameMessages(s.messages, t.messages, c);
    }
  }

  lemma AddedIsNewest(messages: Messages, id: string, m: Message)
    requires id !in messages && forall x | x in messages :: messages[x].createdAt < m.createdAt
    ensures NewestOf(messages[id := m], m.conversation) == Some(m)
    ensures forall c | c != m.conversation :: MessagesOf(messages[id := m], c) == MessagesOf(messages, c)
  {
    var stamps := StampsOf(MessagesOf(messages[id := m], m.conversation));
    assert id in stamps;
    assert IsNewest(stamps, Newest(stamps)) && stamps[Newest(stamps)] >= stamps[id];
  }

  lemma OwnTextShows(m: Message)
    ensures Shows(Last(Some(m.text), Some(m.sender)), Some(m))
  {
  }

  lemma AddKept(s: State, chat: string, sender: string, text: string, id: string, now: int)
    requires Inv(s) && id !in s.messages && now > s.clock
    ensures Inv(AddMessage(s, chat, sender, text, id, now).0)
  {
    hide MessagesOf, NewestOf, QueryMessages, CacheOk, Shows;
    if chat in s.conversations && sender in s.users {
      AddedIsNewest(s.messages, id, Message(chat, sender, text, now));
      OwnTextShows(Message(chat, sender, text, now));
      OneChatKept(s, AddMessage(s, chat, sender, text, id, now).0, chat);
    }
  }

  lemma OthersKeepMessages(messages: Messages, id: string, chat: string)
    ensures forall c | id !in messages || c != messages[id].conversation ::
              MessagesOf(messages - {id}, c) == MessagesOf(messages, c)
    ensures forall c | c != chat :: MessagesOf(Without(messages, chat), c) == MessagesOf(messages, c)
    ensures NewestOf(Without(messages, chat), chat) == None
  {
    assert MessagesOf(Without(messages, chat), chat) == map[];
  }

  lemma DeleteKept(s: State, id: string, sender: string)
    requires Inv(s)
    ensures Inv(DeleteMessage(s, id, sender).0)
  {
    hide MessagesOf, NewestOf, QueryMessages, CacheOk;
    if id in s.messages && s.messages[id].sender == sender {
      var chat := s.messages[id].conversation;
      OthersKeepMessages(s.messages, id, chat);
      OneChatKept(s, DeleteMessage(s, id, sender).0, chat);
    }
  }

  lemma ClearKept(s: State, chat: string, user: string)
    requires Inv(s)
    ensures Inv(ClearChat(s, chat, user).0)
  {
    hide MessagesOf, NewestOf, QueryMessages, CacheOk;
    if TakesPart(s, chat, user) {
      OthersKeepMessages(s.messages, "", chat);
      OneChatKept(s, ClearChat(s, chat, user).0, chat);
    }
  }

  lemma DeleteChatKept(s: State, chat: string, user: string)
    requires Inv(s)
    ensures Inv(DeleteChat(s, chat, user).0)
  {
    hide Inv, OnlyChat, MessagesOk, DeleteChat;
    if DeleteChat(s, chat, user).1.Some? {
      DeletionIsLocal(s, chat, user);
      DeletionKeepsMessagesOk(s, chat, user);
      OneChatKept(s, DeleteChat(s, chat, user).0, chat);
    } else {
      RefusalChangesNothing(s, chat, user);
    }
  }

  lemma DeletionIsLocal(s: State, chat: string, user: string)
    requires Inv(s) && DeleteChat(s, chat, user).1.Some?
    ensures OnlyChat(s, DeleteChat(s, chat, user).0, chat)
  {
    hide OnlyChat, Erased, CacheOk, MessagesOk, ColumnsOk;
    var chats, groups := s.(chats := s.chats - {chat}), s.(groups := s.groups - {chat});
    ErasureIsLocal(s, chats, chat);
    ErasureIsLocal(s, groups, chat);
  }

  lemma ErasureIsLocal(s: State, t: State, chat: string)
    requires ColumnsOk(s) && t == s.(chats := t.chats, groups := t.groups)
    requires forall c | c in t.chats :: c in s.chats && t.chats[c] == s.chats[c]
    requires forall c | c in t.groups :: c in s.groups && t.groups[c] == s.groups[c]
    ensures OnlyChat(s, Erased(t, chat), chat)
  {
    hide MessagesOf, Without, Shows;
    OthersKeepMessages(s.messages, "", chat);
  }

  lemma DeletionKeepsMessagesOk(s: State, chat: string, user: string)
    requires Inv(s) && DeleteChat(s, chat, user).1.Some?
    ensures var t := DeleteChat(s, chat, user).0; MessagesOk(t) && chat !in t.chats && chat !in t.groups
  {
    hide ColumnsOk, CacheOk;
  }

  lemma RefusalChangesNothing(s: State, chat: string, user: string)
    requires DeleteChat(s, chat, user).1.None?
    ensures DeleteChat(s, chat, user).0 == s
  {
  }

  lemma CreateKept(s: State, t: State, id: string)
    requires Inv(s) && id !in s.conversations && t.messages == s.messages && t.users == s.users && t.clock == s.clock
    requires t.conversations == s.conversations + {id} && t.cache == s.cache
    requires t.chats.Keys !! t.groups.Keys
    requires forall c | c in t.chats ::
               if c == id then t.chats[c].last == NO_LAST else c in s.chats && t.chats[c] == s.chats[c]
    requires forall c | c in t.groups ::
               if c == id then t.groups[c].last == NO_LAST else c in s.groups && t.groups[c] == s.groups[c]
    ensures Inv(t)
  {
    hide QueryMessages, StampsOf;
    NoMessagesNoNewest(s.messages, id);
  }

  lemma NoMessagesNoNewest(messages: Messages, chat: string)
    requires forall id | id in messages :: messages[id].conversation != chat
    ensures NewestOf(messages, chat) == None
  {
    assert MessagesOf(messages, chat) == map[];
  }

  lemma Kept(s: State, op: Op)
    requires Inv(s)
    ensures Inv(Step(s, op))
  {
    hide QueryMessages, NewestOf, MessagesOf;
    match op
    case Add(chat, sender, text, newId, now) =>
      if newId !in s.messages && now > s.clock { AddKept(s, chat, sender, text, newId, now); }
    case Delete(id, sender) => DeleteKept(s, id, sender);
    case Clear(chat, user) => ClearKept(s, chat, user);
    case DeleteC(chat, user) => DeleteChatKept(s, chat, user);
    case NewChat(_, _, newId) => if newId !in s.conversations && Step(s, op) != s { CreateKept(s, Step(s, op), newId); }
    case NewGroup(_, _, newId) =>
      if newId !in s.conversations && Step(s, op) != s { CreateKept(s, Step(s, op), newId); }
    case _ =>
  }

  /** In every run, every chat's and group's last-message column shows the text of its
      newest remaining message (empty if there is none), and every cached message list is
      what the ordered query would return. */
  lemma {:induction false} ColumnsAndCacheAlwaysRight(users: map<string, string>, ops: seq<Op>)
    ensures Inv(Run(users, ops))
  {
    if ops != [] {
      ColumnsAndCacheAlwaysRight(users, ops[..|ops| - 1]);
      Kept(Run(users, ops[..|ops| - 1]), ops[|ops| - 1]);
    }
  }

  /** Line `i` of a message list comes from message `ids[i]`. */
  lemma QueryRows(messages: Messages, users: map<string, string>) returns (ids: seq<string>)
    ensures var lines := InOrder(messages, users);
            && |ids| == |lines| == |messages| && (forall id :: id in ids <==> id in messages)
            && (forall i | 0 <= i < |ids| ::
                  ids[i] in messages && lines[i].id == ids[i] && lines[i].message == messages[ids[i]])
            && (forall i, j | 0 <= i < j < |ids| :: messages[ids[i]].createdAt <= messages[ids[j]].createdAt)
  {
    var stamps := StampsOf(messages);
    OldestFirstLists(stamps);
    assert stamps.Keys == messages.Keys;
    ids := OldestFirst(stamps);
    forall i, j | 0 <= i < j < |ids| ensures messages[ids[i]].createdAt <= messages[ids[j]].createdAt {
      assert stamps[ids[i]] <= stamps[ids[j]];
    }
  }

  ghost predicate Lists(lines: seq<Line>, id: string, m: Message) {
    exists i :: 0 <= i < |lines| && lines[i].id == id && lines[i].message == m
  }

  /** A message list shows the messages of the conversation, each once, in the order of
      their times. */
  lemma QueryIsOrdered(messages: Messages, users: map<string, string>, chat: string)
    ensures var lines := QueryMessages(messages, users, chat);
            && |lines| == |MessagesOf(messages, chat)|
            && (forall id, m :: Lists(lines, id, m) <==> id in messages && messages[id] == m && m.conversation == chat)
            && (forall i, j | 0 <= i < j < |lines| :: lines[i].message.createdAt <= lines[j].message.createdAt)
  {
    var mine, lines := MessagesOf(messages, chat), QueryMessages(messages, users, chat);
    var ids := QueryRows(mine, users);
    forall id, m ensures Lists(lines, id, m) <==> id in mine && mine[id] == m {
      if id in mine {
        assert id in ids;
        var i :| 0 <= i < |ids| && ids[i] == id;
        assert lines[i].id == id;
      }
    }
  }
}
