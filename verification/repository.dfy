/** The old repository's calls carried out on its tables and its cache in place. */
module MessageRepository {
  import opened Ordering
  import opened Text
  import opened Wrappers
  import opened LastMessage

  class Repository {
    var users: map<string, string>
    var conversations: set<string>
    var messages: Messages
    var chats: map<string, ChatRow>
    var groups: map<string, GroupRow>
    var msgCache: map<string, seq<Line>>
    /** The time of the last message. */
    var clock: int

    function View(): State
      reads this
    {
      State(users, conversations, messages, chats, groups, msgCache, clock)
    }

    /** No two messages were created at the same time. */
    ghost predicate Valid()
      reads this
    {
      && DistinctTimes(messages)
      && (forall id | id in messages :: messages[id].createdAt <= clock)
    }

    constructor (users: map<string, string>)
      ensures Valid() && View() == State(users, {}, map[], map[], map[], map[], 0)
    {
      this.users, conversations, messages := users, {}, map[];
      chats, groups, msgCache, clock := map[], map[], map[], 0;
    }

    method GetMessages(chat: string) returns (lines: seq<Line>)
      requires Valid()
      modifies this`msgCache
      ensures Valid() && (View(), lines) == LastMessage.GetMessages(old(View()), chat)
    {
      if chat in msgCache {
        return msgCache[chat];
      }
      lines := ReadMessages(MessagesOf(messages, chat), users);
      msgCache := msgCache[chat := lines];
    }

    /** The name is looked up without regard to case. A pair that has a chat keeps it. */
    method CreateNewChat(user: string, targetName: string, newId: string)
      returns (created: Option<(string, string)>)
      requires Valid() && newId !in conversations
      modifies this
      ensures Valid()
      ensures created.Some? ==>
                var (id, target) := created.value;
                && Named(users, target, targetName)
                && View() == LastMessage.CreateChat(old(View()), user, target, newId)
                && HasPair(View(), Pair(user, target), id)
      ensures created.None? ==> View() == old(View())
      ensures created.None? && user in users && !Named(users, user, targetName) ==>
                forall u :: !Named(users, u, targetName)
    {
      var target := FindUser(users, targetName);
      if target.None? {
        return None;
      }
      PairIsSymmetric(user, target.value);
      var (u1, u2) := Pair(user, target.value);
      if c :| c in chats && chats[c].user1 == u1 && chats[c].user2 == u2 {
        assert HasPair(View(), (u1, u2), c);
        return Some((c, target.value));
      }
      assert forall c :: !HasPair(View(), (u1, u2), c);
      if user == target.value || user !in users {
        return None;
      }
      conversations := conversations + {newId};
      chats := chats[newId := ChatRow(u1, u2, NO_LAST)];
      return Some((newId, target.value));
    }

    method AddMessage(chat: string, sender: string, text: string, newId: string, now: int) returns (r: Option<string>)
      requires Valid() && newId !in messages && now > clock
      modifies this
      ensures Valid() && (View(), r) == LastMessage.AddMessage(old(View()), chat, sender, text, newId, now)
    {
      if chat !in conversations || sender !in users {
        return None;
      }
      messages := messages[newId := Message(chat, sender, text, now)];
      clock := now;
      if chat in chats {
        chats := chats[chat := chats[chat].(last := Last(Some(text), Some(sender)))];
      } else if chat in groups {
        groups := groups[chat := groups[chat].(last := Last(Some(text), Some(sender)))];
      }
      msgCache := msgCache - {chat};
      return Some(newId);
    }

    method UpdateLast(chat: string, last: Last)
      modifies this`chats, this`groups
      ensures View() == SetLast(old(View()), chat, last)
    {
      if chat in chats {
        chats := chats[chat := chats[chat].(last := last)];
      }
      if chat in groups {
        groups := groups[chat := groups[chat].(last := last)];
      }
    }

    /** Also returns the text the column now shows and the name of its sender. */
    method DeleteMessage(id: string, sender: string) returns (r: Option<string>, newLast: string, lastName: string)
      requires Valid()
      modifies this
      ensures Valid() && (View(), r) == LastMessage.DeleteMessage(old(View()), id, sender)
      ensures newLast == if r.Some? then TextOf(NewestOf(messages, r.value)) else ""
      ensures lastName == if newLast == "" then "" else NameOf(users, NewestOf(messages, r.value).value.sender)
    {
      if id !in messages || messages[id].sender != sender {
        return None, "", "";
      }
      var chat := messages[id].conversation;
      messages := messages - {id};
      var newest := FindNewest(messages, chat);
      if newest.None? || newest.value.text == "" {
        UpdateLast(chat, NO_LAST);
        newLast, lastName := "", "";
      } else {
        UpdateLast(chat, Last(Some(newest.value.text), Some(newest.value.sender)));
        newLast, lastName := newest.value.text, NameOf(users, newest.value.sender);
      }
      msgCache := msgCache - {chat};
      r := Some(chat);
    }

    method ClearChat(chat: string, user: string) returns (r: Option<()>)
      requires Valid()
      modifies this
      ensures Valid() && (View(), r) == LastMessage.ClearChat(old(View()), chat, user)
    {
      var allowed := chat in chats && (chats[chat].user1 == user || chats[chat].user2 == user);
      if !allowed {
        allowed := chat in groups && user in groups[chat].members;
      }
      if !allowed {
        return None;
      }
      messages := Without(messages, chat);
      UpdateLast(chat, NO_LAST);
      msgCache := msgCache - {chat};
      return Some(());
    }

    method DeleteChat(chat: string, user: string) returns (r: Option<()>)
      requires Valid()
      modifies this
      ensures Valid() && (View(), r) == LastMessage.DeleteChat(old(View()), chat, user)
    {
      if chat in chats && (chats[chat].user1 == user || chats[chat].user2 == user) {
        chats := chats - {chat};
      } else if chat in groups && groups[chat].admin == user {
        groups := groups - {chat};
      } else {
        return None;
      }
      messages := Without(messages, chat);
      conversations := conversations - {chat};
      msgCache := msgCache - {chat};
      return Some(());
    }
  }

  predicate Named(users: map<string, string>, user: string, name: string) {
    user in users && ToLower(users[user]) == ToLower(name)
  }

  /** A user whose name is this one, in any case. */
  method FindUser(users: map<string, string>, name: string) returns (user: Option<string>)
    ensures user.Some? ==> Named(users, user.value, name)
    ensures user.None? ==> forall u :: !Named(users, u, name)
  {
    if u :| u in users && ToLower(users[u]) == ToLower(name) {
      return Some(u);
    }
    return None;
  }

  // ---------- Reading messages ----------

  ghost predicate DistinctTimes(messages: Messages) {
    forall a, b | a in messages && b in messages && messages[a].createdAt == messages[b].createdAt :: a == b
  }

  /** The newest message of a conversation, read back from the table. */
  method FindNewest(messages: Messages, chat: string) returns (newest: Option<Message>)
    requires DistinctTimes(messages)
    ensures newest == NewestOf(messages, chat)
  {
    var mine := MessagesOf(messages, chat);
    ghost var stamps := StampsOf(mine);
    assert stamps.Keys == mine.Keys;
    newest := None;
    var todo := mine.Keys;
    while todo != {}
      invariant todo <= mine.Keys
      invariant newest.None? ==> todo == mine.Keys
      invariant newest.Some? ==> exists id | id in mine :: newest.value == mine[id]
      invariant newest.Some? ==> forall id | id in mine && id !in todo :: mine[id].createdAt <= newest.value.createdAt
    {
      var id :| id in todo;
      if newest.None? || newest.value.createdAt < mine[id].createdAt {
        newest := Some(mine[id]);
      }
      todo := todo - {id};
    }
    if newest.Some? {
      var id :| id in mine && newest.value == mine[id];
      assert IsNewest(stamps, Newest(stamps)) && stamps[Newest(stamps)] >= stamps[id];
    }
  }

  /** The loop over a conversation's rows, delivered oldest first. */
  method ReadMessages(messages: Messages, users: map<string, string>) returns (lines: seq<Line>)
    requires DistinctTimes(messages)
    ensures lines == InOrder(messages, users)
  {
    hide InOrder;
    lines := [];
    var todo := messages;
    while todo != map[]
      invariant forall id | id in todo :: id in messages && todo[id] == messages[id]
      invariant lines + InOrder(todo, users) == InOrder(messages, users)
      decreases |todo|
    {
      OldestExists(todo);
      var id :| id in todo && forall j | j in todo :: todo[id].createdAt <= todo[j].createdAt;
      OldestIsNext(todo, users, id);
      var m := todo[id];
      lines := lines + [Line(id, m, NameOf(users, m.sender))];
      todo := todo - {id};
    }
    NoMessages(users);
  }

  lemma NoMessages(users: map<string, string>)
    ensures InOrder(map[], users) == []
  {
    assert Negated(StampsOf(map[])) == map[];
  }

  lemma OldestExists(messages: Messages)
    requires messages != map[]
    ensures exists id :: id in messages && forall j | j in messages :: messages[id].createdAt <= messages[j].createdAt
  {
    var stamps := Negated(StampsOf(messages));
    assert messages.Keys != {} && stamps.Keys == messages.Keys;
    NewestExists(stamps);
    var id :| IsNewest(stamps, id);
    assert forall j | j in messages :: stamps[j] <= stamps[id];
  }

  lemma OldestIsNext(messages: Messages, users: map<string, string>, id: string)
    requires DistinctTimes(messages)
    requires id in messages && forall j | j in messages :: messages[id].createdAt <= messages[j].createdAt
    ensures InOrder(messages, users) ==
            [Line(id, messages[id], NameOf(users, messages[id].sender))]
            + InOrder(messages - {id}, users)
    ensures |messages - {id}| < |messages|
  {
    var stamps := Negated(StampsOf(messages));
    assert stamps.Keys == messages.Keys && (messages - {id}).Keys == messages.Keys - {id};
    assert IsNewest(stamps, Newest(stamps)) && stamps[Newest(stamps)] == stamps[id];
    assert Newest(stamps) == id;
    assert stamps - {id} == Negated(StampsOf(messages - {id}));
    NewestFirstLists(stamps - {id});
    LinesSplit(messages, users, id, NewestFirst(stamps - {id}));
  }

  lemma LinesSplit(messages: Messages, users: map<string, string>, id: string, tail: seq<string>)
    requires id in messages && forall k | k in tail :: k in messages - {id}
    ensures Lines(messages, users, [id] + tail) ==
            [Line(id, messages[id], NameOf(users, messages[id].sender))]
            + Lines(messages - {id}, users, tail)
  {
  }
}
