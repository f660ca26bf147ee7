/** What the calls of the old repository do to messages and conversations, and which messages
    are there after any run. */
module MessageHistory {
  import opened Ordering
  import opened Wrappers
  import opened LastMessage

  // ---------- Who may do what ----------

  predicate IsParty(s: State, chat: string, user: string) {
    chat in s.chats && (s.chats[chat].user1 == user || s.chats[chat].user2 == user)
  }

  predicate MayClear(s: State, chat: string, user: string) {
    IsParty(s, chat, user) || (chat in s.groups && user in s.groups[chat].members)
  }

  predicate MayDelete(s: State, chat: string, user: string) {
    IsParty(s, chat, user) || (chat in s.groups && s.groups[chat].admin == user)
  }

  // ---------- What the calls do ----------

  /** A message from a known sender to a known conversation is stored as it is, and any other
      refused with nothing changed. */
  lemma AddEffect(s: State, chat: string, sender: string, text: string, id: string, now: int)
    requires id !in s.messages
    ensures var (t, r) := AddMessage(s, chat, sender, text, id, now);
            if chat in s.conversations && sender in s.users
            then
              && r == Some(id) && id in t.messages && t.messages[id] == Message(chat, sender, text, now)
              && t.messages - {id} == s.messages
              && t.chats.Keys == s.chats.Keys && t.groups.Keys == s.groups.Keys && t.conversations == s.conversations
              && t.clock == now && chat !in t.cache
            else r == None && t == s
  {
    var t := AddMessage(s, chat, sender, text, id, now).0;
    if chat in s.conversations && sender in s.users {
      assert t.messages - {id} == s.messages;
    }
  }

  /** Its sender, and nobody else, deletes a message, and no other goes. */
  lemma DeleteEffect(s: State, id: string, sender: string)
    ensures var (t, r) := DeleteMessage(s, id, sender);
            if id in s.messages && s.messages[id].sender == sender
            then
              && r == Some(s.messages[id].conversation) && t.messages == s.messages - {id}
              && t.chats.Keys == s.chats.Keys && t.groups.Keys == s.groups.Keys && t.conversations == s.conversations
              && s.messages[id].conversation !in t.cache
            else r == None && t == s
  {
  }

  /** A party or member, and nobody else, clears a conversation: its messages go, all others
      stay, and so does the conversation. */
  lemma ClearEffect(s: State, chat: string, user: string)
    ensures var (t, r) := ClearChat(s, chat, user);
            && (r.Some? <==> MayClear(s, chat, user)) && (r.None? ==> t == s)
            && (r.Some? ==>
                  && (forall id :: id in t.messages <==> id in s.messages && s.messages[id].conversation != chat)
                  && (forall id | id in t.messages :: t.messages[id] == s.messages[id])
                  && t.chats.Keys == s.chats.Keys && t.groups.Keys == s.groups.Keys
                  && t.conversations == s.conversations && chat !in t.cache)
  {
  }

  /** A party of a chat or the admin of a group, and nobody else, deletes it with its messages;
      all others stay. */
  lemma DeleteChatEffect(s: State, chat: string, user: string)
    requires MessagesOk(s)
    ensures var (t, r) := DeleteChat(s, chat, user);
            && (r.Some? <==> MayDelete(s, chat, user)) && (r.None? ==> t == s)
            && (r.Some? ==>
                  && (forall id :: id in t.messages <==> id in s.messages && s.messages[id].conversation != chat)
                  && (forall id | id in t.messages :: t.messages[id] == s.messages[id])
                  && t.chats == s.chats - {chat} && t.groups == s.groups - {chat}
                  && t.conversations == s.conversations - {chat} && chat !in t.cache)
  {
    var t := DeleteChat(s, chat, user).0;
    if IsParty(s, chat, user) {
      assert t.groups == s.groups - {chat};
    } else if MayDelete(s, chat, user) {
      assert t.chats == s.chats - {chat};
    }
  }

  /** Two different known users without a chat get one, with nothing said in it; otherwise
      nothing changes. */
  lemma NewChatEffect(s: State, user: string, target: string, id: string)
    requires id !in s.conversations && id !in s.chats
    requires forall c | c in s.chats :: Less(s.chats[c].user1, s.chats[c].user2)
    ensures var t := CreateChat(s, user, target, id);
            if user == target || user !in s.users || target !in s.users
               || exists c :: c in s.chats && {s.chats[c].user1, s.chats[c].user2} == {user, target}
            then t == s
            else
              && id in t.chats && {t.chats[id].user1, t.chats[id].user2} == {user, target}
              && t.chats[id].last == Last(None, None) && t.chats - {id} == s.chats
              && t.conversations == s.conversations + {id}
              && t.groups == s.groups && t.messages == s.messages && t.cache == s.cache
  {
    PairIsSymmetric(user, target);
    var t, pair := CreateChat(s, user, target, id), Pair(user, target);
    forall c | c in s.chats
      ensures HasPair(s, pair, c) <==> {s.chats[c].user1, s.chats[c].user2} == {user, target}
    {
      LessIsTotal(s.chats[c].user1, s.chats[c].user2);
      LessIsTotal(user, target);
      LessIsTotal(target, user);
    }
    if t != s {
      assert t.chats - {id} == s.chats;
    }
  }

  /** A read returns the ordered query, whether it was cached or not. */
  lemma ReadEffect(s: State, chat: string)
    requires CacheOk(s)
    ensures var (t, lines) := GetMessages(s, chat);
            && lines == QueryMessages(s.messages, s.users, chat)
            && chat in t.cache && t.cache[chat] == lines && t.messages == s.messages
            && t.chats == s.chats && t.groups == s.groups && t.conversations == s.conversations
  {
  }

  // ---------- Which messages are there ----------

  /** The call stores this message. */
  predicate Stores(s: State, op: Op, id: string, m: Message) {
    && op == Add(m.conversation, m.sender, m.text, id, m.createdAt)
    && id !in s.messages && m.createdAt > s.clock && m.conversation in s.conversations && m.sender in s.users
  }

  /** The call takes it away. */
  predicate Takes(s: State, op: Op, id: string, m: Message) {
    || op == Delete(id, m.sender)
    || (op.Clear? && op.chat == m.conversation && MayClear(s, op.chat, op.user))
    || (op.DeleteC? && op.chat == m.conversation && MayDelete(s, op.chat, op.user))
  }

  predicate Holds(s: State, id: string, m: Message) {
    id in s.messages && s.messages[id] == m
  }

  lemma StepHolds(s: State, op: Op, id: string, m: Message)
    requires MessagesOk(s)
    ensures Holds(Step(s, op), id, m) <==> Stores(s, op, id, m) || (Holds(s, id, m) && !Takes(s, op, id, m))
  {
    hide AddMessage, DeleteMessage, ClearChat, DeleteChat, MayClear, MayDelete, MessagesOk;
    match op
    case Add(chat, sender, text, newId, now) =>
      if newId !in s.messages {
        AddEffect(s, chat, sender, text, newId, now);
      }
    case Delete(d, sender) => DeleteEffect(s, d, sender);
    case Clear(chat, user) => ClearEffect(s, chat, user);
    case DeleteC(chat, user) => DeleteChatEffect(s, chat, user);
    case _ => OthersKeepMessages(s, op);
  }

  lemma OthersKeepMessages(s: State, op: Op)
    requires !op.Add? && !op.Delete? && !op.Clear? && !op.DeleteC?
    ensures Step(s, op).messages == s.messages
  {
    hide QueryMessages;
  }

  /** The message was stored and nothing has taken it away since. */
  ghost predicate StoredSince(users: map<string, string>, ops: seq<Op>, id: string, m: Message) {
    ops != [] &&
    var before, op := ops[..|ops| - 1], ops[|ops| - 1];
    var s := Run(users, before);
    Stores(s, op, id, m) || (StoredSince(users, before, id, m) && !Takes(s, op, id, m))
  }

  /** After every run a message is there exactly if it was added and since then neither its
      sender has deleted it, nor anyone who may has cleared or deleted its conversation. */
  lemma {:induction false} ThereIffStoredSince(users: map<string, string>, ops: seq<Op>, id: string, m: Message)
    ensures Holds(Run(users, ops), id, m) <==> StoredSince(users, ops, id, m)
  {
    hide Step, Stores, Takes, ColumnsOk, CacheOk, MessagesOk;
    if ops != [] {
      var before := ops[..|ops| - 1];
      ThereIffStoredSince(users, before, id, m);
      ColumnsAndCacheAlwaysRight(users, before);
      StepHolds(Run(users, before), ops[|ops| - 1], id, m);
    }
  }
}
